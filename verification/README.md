# Archive service: a verified model

The archive service turns a folder of a file store into one ZIP or TAR file. A request is queued as a
job; a pool of workers reads the folder tree and its files from the database, streams every file from
storage into a temporary archive, renames it to its final name and issues a download token; clients
follow a job over server-sent events and download it; a periodic sweep removes what has expired.

The model has two halves.

**The job protocol** (`Protocol`, `ProtocolInvariant`, `ProtocolSteps`, `JobLifecycle`, `Downloads`,
`SweepThreat`, `Scenario`, `StaleSweep`, `OrphanTokens`, `Provenance`, `TempFiles`, `JobTruth`, `Admission`, `Expiry`,
`Draining`, `Sse`). Creators, workers, one sweep, the clock and shutdown are actors over shared state: job
store, bounded queue, token table, disk with inodes and open handles. Every store, token or disk call is one atomic step and steps interleave in any
order; a download request makes three such calls, at three states of a run. `Run` is any finite
execution from a fresh process; the main results hold in every state of every run. They rest on one
invariant, `ProtocolInvariant.Inv`, which `ProtocolSteps.StepKeeps` shows every step to preserve.

**The manifest and archive pipeline** (`Paths`, `Sanitize`, `Naming`, `FolderTree`, `FileQuery`, `Keyset`,
`EmptyFolders`, `Subtree`, `Manifest`, `Generator`, `GenerateLoop`, `EndToEnd`, `Pipeline`,
`ChangingTree`). The recursive folder query, keyset paging, path rebasing, the sort-and-search emptiness test and the size-capped writer
are each proved against a simple specification; together they give the end-to-end theorem that the
archive is the folder tree. 64-bit wrap-around is written out wherever the program adds sizes.

`ServedTree` joins the two halves: in a run whose workers generate archives as the pipeline does, whatever a
download serves is an archive that is the folder tree of the job's request.

The objects the program updates in place are classes (`JobStore.MemoryStore`, `Tokens.TokenService`,
`LocalStorage.ArchiveDir`, `GenerateLoop.ArchiveWriter`, `Sse.Connection`), and `Cleanup.Sweep` is the sweep
run alone over the first three; `SweepAlone` shows that the protocol's sweep steps come to the same.

`dafny verify dfyconfig.toml` checks the project.

## What turned out to be false, and exactly when it holds

- *A completed job can be downloaded until it expires.* The sweep works from a list it read earlier, so it
  can delete a job that completed since. `StaleSweep.ArchiveIsLost` builds such a run, in a configuration the program accepts;
  `SweepThreat.DownloadKeptExactly` shows that the download survives in every continuation if and only if
  the sweep in progress does not threaten the job, which its list, clock and position decide; later sweeps
  never matter. `Downloads.StaysDownloadable` is the form over whole runs.
- *A token has a job.* A worker may issue a token after the sweep has revoked the job's tokens or erased its
  record (`OrphanTokens.TokenOutlivesJob`). `OrphanTokens.OrphanExactly` says exactly which tokens can come
  to that.
- *A token that has lost its job serves nothing.* It holds of every request that looks the record up after
  the loss (`OrphanTokens.OrphanServesNothing`). A request that looked it up before is still served: the token
  check and the open that follow ask nothing about the record (`OrphanTokens.ServedAfterLoss` is such a run).
- *A successful run writes every file whole.* With the cap at the largest 64-bit integer the reader's
  limit wraps below zero and every file comes out empty (`GenerateLoop.LargestCapLosesContent` is such a
  run); `Generator.WholeExactly` is the exact condition.
- *The manifest's total is the sum of the sizes.* Exactly when the sum fits 64 bits (`Manifest.TotalExactly`);
  `Manifest.TotalCanWrap` shows a negative total that passes every cap.
- *A cleaned path has no drive letter, and cleaning it again changes nothing.* The drive-letter test reads
  the uncleaned path, so `./C:` gets through (`Sanitize.DriveLetterSlipsThrough`). Both hold exactly when the
  first segment the path leads to is no drive letter (`Sanitize.DriveLetterExactly`, `Sanitize.Idempotent`).
- *An accepted archive name can be used.* A name such as `a:b` passes validation (`Naming.ColonNameAccepted`),
  and every job under it fails, because every path begins with what the path check takes for a drive letter
  (`EndToEnd.ColonNameDoomsJob`); under any other root plain paths are accepted (`Naming.RebasedAccepted`,
  `EndToEnd.ZipUnderName`).
- *The folder query ends.* Exactly when no live path leads from the root back to itself
  (`FolderTree.EndsIffAcyclic`); a folder that is its own parent keeps it going
  (`FolderTree.CycleNeverEnds`).

## Model

| member | source | states |
|---|---|---|
| ProtocolSteps.RunInv | internal/service/archive.go:120-379 | the invariant holds in every state of every run, whatever way creators, workers, sweep, clock and shutdown interleave |
| ProtocolSteps.StepKeeps | internal/worker/worker.go:62-75 | one atomic step of any actor preserves ownership, record, disk, sweep and token invariants |
| ProtocolSteps.WorkerKeeps | internal/service/archive.go:196-379 | every step of a worker inside ProcessJob, successful or failing, preserves the invariant |
| ProtocolSteps.SweepKeeps | internal/worker/cleanup.go:79-138 | a sweep step preserves the invariant and only removes: records, tokens and names can vanish but never change or appear |
| ProtocolSteps.CreatorKeeps | internal/service/archive.go:120-175 | every step of CreateJob, including the queue-full roll-back, preserves the invariant |
| JobLifecycle.SingleOwnership | internal/service/archive.go:149-175 | in every reachable state each accepted job is in exactly one of queue, one worker or finished; the counts add up; queue and pool stay within their bounds |
| JobLifecycle.RecordsAdvance | internal/job/store.go:65-83 | between any two states of a run a record keeps its ID and creation time, never goes back from Processing to Queued, never changes once Completed or Failed, loses no processed file or byte and keeps its totals once recorded; a removed job never reappears and a job's plan never changes |
| JobLifecycle.NoneStuck | internal/service/archive.go:196-243 | a Queued record is with its creator, the queue or a worker that has not started; a Processing one with a worker that has, and no job is with two workers; a job whose ProcessJob returned is terminal or gone; a rejected request left nothing |
| JobTruth.RecordsAreTrue | internal/service/archive.go:196-379 | in every state of every run a record tells the truth: totals are those of the job's manifest, counters those of a prefix of its files, all of them and within the cap once Completed; completion time plus the lifetime is the expiry; an error only on a Failed job, with each reason only where its cause can have been |
| JobTruth.CapDecides | internal/service/archive.go:231-235 | in every state of every run a job whose recorded total is above the cap is not Completed and has no final file, and only such a job, Failed, has the reason "too large" |
| JobTruth.PublishedFits | internal/service/archive.go:231-240 | whatever sits at a job's final path has a manifest whose declared total is within the cap |
| Admission.FirstInFirstOut | internal/worker/worker.go:62-75 | a job ahead of another in the queue stays ahead: the other does not leave the queue while it waits |
| Admission.RejectedMetFull | internal/service/archive.go:160-170 | a request is rejected only after an earlier state in which its job was stored and the queue was full |
| Admission.CreatedThen | internal/service/archive.go:149-162 | a stored record's creation time is the clock of an earlier state, before the job was stored |
| Admission.ExitedAfterCancel | internal/worker/worker.go:62-75 | a worker has exited only if the pool's context was cancelled |
| Expiry.RemovedOnlyExpired | internal/worker/cleanup.go:79-122 | in every run, an accepted job whose record was there and is gone had, in an earlier state, a record whose expiry, or whose creation time plus the fallback if it had none, is past |
| Expiry.KeptWhileYoung | internal/worker/cleanup.go:116-122 | with the fallback the program configures, an accepted job's record stays at least for one lifetime after its creation |
| JobLifecycle.FinalIsComplete | internal/service/archive.go:289-325 | whatever sits at a job's final path in any state of any run is the complete, closed output of the job's one manifest |
| JobLifecycle.DeletedTempNeverPublishes | internal/storage/local.go:63-97 | if the temp file is deleted while its worker writes it, the final path stays empty for the rest of the run and the job ends Failed or gone |
| Downloads.StaysDownloadable | internal/handler/download.go:54-91 | a job seen Completed is served whole to every later request of its token's holder, at whichever three states up to the expiry its calls come, if every sweep that overlapped its file saw it unexpired |
| Downloads.ServedExactly | internal/handler/download.go:54-91 | a request is served this body if and only if its token is not empty, the record is Completed at its first call, the token is in the table for this job and not past its expiry at the second, and the final file has this body at the third |
| Downloads.RefusedExactly | internal/handler/download.go:54-83 | exactly when the answer is not-found, conflict or unauthorized: the first check that fails decides |
| SweepThreat.DownloadKeptExactly | internal/worker/cleanup.go:79-122 | in every reachable state a downloadable job is served to every request of three interleaved calls, in all continuations up to its expiry, if and only if the sweep in progress does not threaten it |
| SweepThreat.CanBeLost | internal/worker/cleanup.go:97-111 | from every threatened state a continuation exists that loses the download before the expiry |
| SweepThreat.SafeForGood | internal/worker/cleanup.go:79-138 | an unthreatened job stays unthreatened and downloadable through every later sweep, until it expires |
| OrphanTokens.OrphanExactly | internal/service/archive.go:332-348 | in every reachable state a token keeps its job for as long as it lives, in all continuations, if and only if the job is stored and the sweep is not between revoking its tokens and erasing its record |
| OrphanTokens.OrphanServesNothing | internal/handler/download.go:54-91 | no request that starts after a token has lost its job is served with it, for any job, wherever its three calls come |
| OrphanTokens.TokenWasIssued | internal/token/token.go:78-90 | every token in the table was entered earlier in the run by a worker that was issuing for that very job, with an expiry of the clock then plus the lifetime |
| OrphanTokens.ServedIsEntitled | internal/handler/download.go:74-83 | whoever is served presents a token that a worker of that very job issued earlier, no longer ago than the lifetime |
| OrphanTokens.ServedAfterLoss | internal/handler/download.go:59-85 | a concrete run in which a request looks the record up, the record is erased, and the request's token check and open still succeed |
| OrphanTokens.TokenOutlivesJob | internal/worker/cleanup.go:126-138 | a concrete run, in a configuration the program accepts, in which the sweep removes an expired job under its worker and the token the worker issued has no job |
| StaleSweep.ArchiveIsLost | internal/worker/cleanup.go:80-111 | a concrete run, in a configuration the program accepts, in which a sweep lists the jobs, a job is then created and completed, and the same sweep takes its download away |
| Draining.DrainBound | cmd/server/main.go:175-188 | once intake has stopped, a run finishes at most as many further jobs as were queued, with a worker or with a creator past the accepting check |
| Draining.DrainStep | internal/worker/worker.go:62-80 | with intake stopped every creator or worker step lowers an explicit measure; sweep and clock leave creators, queue and workers alone |
| Draining.NothingBlocks | internal/worker/worker.go:62-75 | after cancellation every worker that has not exited has a step it can take |
| Draining.RestIsExited | internal/worker/worker.go:62-80 | after cancellation a reachable state has no worker step left if and only if every worker has exited; with the measure of DrainStep, every run that keeps taking worker steps gets there |
| Draining.CanDrain | internal/worker/worker.go:78-80 | from every state after shutdown some continuation ends with all workers exited |
| Sse.Connection.Send | internal/handler/sse.go:87-121 | a Completed record adds one completion with its own ID, token and time left; a Failed or Expired one an error with its own reason, or the generic text if it has none; any other a progress event with its four counters unless the last one had the same |
| Sse.Connection.Follow | internal/handler/sse.go:130-150 | the polling loop writes exactly the stream of its polls |
| Sse.Connection.Events | internal/handler/sse.go:58-151 | a connection answers not-found or error on its first poll or for a writer that cannot flush, or streams exactly the events of its polls |
| Sse.EventSource | internal/handler/sse.go:87-150 | every event of a stream is true of one of its polls: progress carries that poll's counters, completion its ID, token and time left, an error its reason, and "unavailable" means the job was gone |
| Sse.EndIsTold | internal/handler/sse.go:130-150 | the first poll that finds the job terminal or gone is answered by the stream's last event, which is true of it |
| Sse.StreamWellFormed | internal/handler/sse.go:84-150 | for polls of one advancing job: progress events that differ and never fall back, then at most one terminal event and nothing after it |
| Sse.StreamsAreWellFormed | internal/service/archive.go:298-305 | every stream sampled from any run of the protocol is well formed |
| Sse.StreamsAreTrue | internal/handler/sse.go:58-151 | in every run a completion sent for a job carries the token and expiry of its own Completed record at that moment, an error the reason of its own Failed record, progress the counters stored |
| Tokens.TokenService.Issue | internal/token/token.go:78-90 | the table gains exactly the drawn token, for the job, until now plus ttl; if the random source fails there is no token and no change |
| Tokens.TokenService.Check | internal/token/token.go:93-108 | valid if and only if the token is known, is the job's own and is not past its expiry; otherwise invalid or lapsed, in that order |
| Tokens.TokenService.Revoke | internal/token/token.go:111-120 | deleting while ranging leaves exactly the tokens of other jobs |
| Tokens.TokenLife | internal/token/token.go:78-120 | an issued token is valid for its job only, up to and including its expiry, then lapsed; revoking its job makes it invalid, revoking another does not |
| LocalStorage.ParseExact | internal/storage/local.go:122-130 | a file name parses to a job if and only if it is one of that job's two names, for every ID |
| LocalStorage.NamesApart | internal/storage/local.go:53-60 | temp and final names never collide and each belongs to one job |
| LocalStorage.OperationsByJob | internal/storage/local.go:63-97 | create, delete and rename act on one job's two files and leave every other job's alone |
| LocalStorage.ArchiveDir.Create | internal/storage/local.go:63-69 | the temp file exists and is empty and nothing else changed, or the call failed and nothing changed |
| LocalStorage.ArchiveDir.Open | internal/storage/local.go:72-78 | the body of the job's final file, or an error when there is none |
| LocalStorage.ArchiveDir.Delete | internal/storage/local.go:81-88 | both names of the job are gone and nothing else, missing files being no error; the first other error ends it |
| LocalStorage.ArchiveDir.RenameTemp | internal/storage/local.go:92-97 | fails without a temp file or on an error, changing nothing; otherwise its body moves to the final name and nothing else changes |
| LocalStorage.ArchiveDir.ListJobIds | internal/storage/local.go:109-138 | every job one of whose two names is in the directory, exactly once, or an error |
| JobStore.Job.Clone | internal/model/archive.go:150-160 | a copy with the same value that shares no object with the original, the completion cell included |
| JobStore.MemoryStore.Create | internal/job/store.go:40-49 | adds a copy of the job's value, or fails and changes nothing if the ID exists |
| JobStore.MemoryStore.Get | internal/job/store.go:52-61 | a copy of the stored value made of new objects, or not found |
| JobStore.MemoryStore.Update | internal/job/store.go:65-74 | replaces the stored value by a copy, or fails and changes nothing if the ID is missing |
| JobStore.MemoryStore.Delete | internal/job/store.go:78-83 | removes the ID, silently if it is missing |
| JobStore.MemoryStore.List | internal/job/store.go:86-95 | copies of all jobs, each exactly once, sharing nothing with the store or each other |
| JobClient.Perform | internal/job/store.go:40-95 | one call, or one arbitrary write into a job held by the caller, is one step of a plain map of values, and no stored object becomes reachable |
| JobClient.Script | internal/job/store.go:40-95 | the same over any sequence of calls and writes |
| JobClient.Session | internal/job/store.go:34-95 | the same from an empty store: whatever is called and written, the heap shows a map and held values that the value semantics gives |
| JobClient.OnlyCallsChange | internal/job/store.go:65-74 | without Create, Update or Delete the stored value of an ID stays as it is, whatever callers write into jobs handed in or out |
| Cleanup.RemoveJob | internal/worker/cleanup.go:126-138 | the job's two files, its tokens and its record go, and nothing else |
| Cleanup.VisitAll | internal/worker/cleanup.go:87-95 | the first loop removes exactly the expired jobs with their tokens and files and tracks exactly the others |
| Cleanup.PurgeOrphans | internal/worker/cleanup.go:97-111 | the second loop leaves exactly the files of tracked jobs and the files of no job |
| Cleanup.Sweep | internal/worker/cleanup.go:79-122 | run alone without failures: a job stays exactly if its recorded expiry, or its creation plus the fallback when it has none, is not past; and what is left is the state SweptExactly describes |
| Cleanup.SweptExactly | internal/worker/cleanup.go:79-138 | what a sweep leaves, job by job: the unexpired jobs unchanged; the tokens of jobs that did not go; the two files of a job exactly if it stays, and every file that is no job's |
| Cleanup.SweepsCompose | internal/worker/cleanup.go:60-75 | an earlier sweep makes no difference to what a later one leaves; in particular sweeping is idempotent |
| SweepAlone.SweepDone | internal/worker/cleanup.go:79-138 | the protocol's steps of one whole sweep, with no call failing and nothing in between, leave exactly the unexpired jobs with their files, take the tokens of the others and change nothing else, as the sweep run alone does |
| SweepAlone.SweepEnds | internal/worker/cleanup.go:79-138 | from every state in which it rests a sweep can run to its end that way |
| Sanitize.SanitizeExact | internal/archive/zip.go:269-299 | a path is accepted if and only if it is non-empty, NUL-free, relative, without a colon as second byte, and its walk stays inside the root and ends strictly below it; the result is the walk's stack, so the final loop never rejects |
| Sanitize.OutputIsSafe | internal/archive/zip.go:265-299 | an accepted result has no leading slash, no backslash or NUL, and only plain segments |
| Sanitize.SanitizeGood | internal/archive/zip.go:280-298 | a path of plain segments is returned unchanged, or rejected exactly when its second byte is a colon |
| Sanitize.DriveLetterExactly | internal/archive/zip.go:265-283 | an accepted path comes out with a drive letter if and only if the first segment of its walk is one |
| Sanitize.Idempotent | internal/archive/zip.go:281-283 | re-cleaning a result is the identity, or a rejection exactly when the first segment of the path's walk is a drive letter |
| Sanitize.DriveLetterSlipsThrough | internal/archive/zip.go:281-285 | `./C:` is accepted and comes out as `C:` |
| Sanitize.RootedIsClean | internal/archive/zip.go:285-290 | a rooted path cleans to a slash and plain segments however often it climbs, so only the test of the uncleaned path can refuse it |
| Naming.RootIsSafe | internal/service/archive.go:396-426 | for every accepted archive name the derived root is empty or one plain segment |
| Naming.TrimExact | internal/service/archive.go:397-398 | trimming drops the white space at both ends and nothing else |
| Naming.ValidateExactly | internal/service/archive.go:396-408 | a name is accepted, trimmed, if and only if it is not empty, "." or "..", has no slash, backslash or NUL and at most 255 characters |
| Naming.CharactersCounted | internal/service/archive.go:60-60 | the length limit counts the characters of a UTF-8 name, whatever their widths |
| Naming.SuffixStripped | internal/service/archive.go:413-426 | a name followed by `.zip` or `.tar` in any letter case gives the name, or nothing for "." and ".." |
| Naming.OtherNameKept | internal/service/archive.go:413-426 | a trimmed name with no such ending is its own root, unless it is "." or ".." |
| Naming.RootExactly | internal/service/archive.go:413-426 | for every name, the root is empty exactly when the trimmed stem is empty, "." or "..", and is the stem otherwise |
| Naming.ColonNameAccepted | internal/service/archive.go:396-426 | the name `a:b` is accepted and is its own root |
| Naming.ColonRootRefused | internal/archive/zip.go:280-283 | under a root whose second byte is a colon every rebased path is refused |
| Naming.RebasedAccepted | internal/service/archive.go:430-438 | under a plain root every plain path is accepted unchanged, or refused exactly when the root's second byte is a colon |
| Naming.RebaseSegments | internal/service/archive.go:430-438 | rebasing replaces the first segment and keeps the others |
| Naming.RebaseKeepsTree | internal/service/archive.go:430-438 | on paths sharing their first segment rebasing is injective and preserves and reflects lying under a folder |
| EmptyFolders.SearchStrings | internal/service/archive.go:471-471 | binary search finds the first string not below the target |
| EmptyFolders.SearchDecides | internal/service/archive.go:469-473 | the one string the search finds decides whether any path lies under the folder |
| EmptyFolders.ComputeEmptyFolders | internal/service/archive.go:458-482 | for every folder and file list, in order, exactly the folders under which no file path lies |
| EmptyFolders.RebaseKeepsEmpty | internal/service/archive.go:262-280 | the same folders come out empty before and after rebasing |
| Subtree.EmptyIsEmptySubtree | internal/service/archive.go:454-482 | with slash-free names and distinct siblings a folder counts as empty if and only if no file of its true subtree belongs in the archive |
| Subtree.UnderIsSubtree | internal/service/archive.go:469-473 | a file's archive path lies under a folder's if and only if the file's folder is in that folder's subtree |
| FolderTree.GetFolderTree | internal/repository/archive.go:82-132 | the iterated working table ends and returns every live folder reached through live folders exactly once, with the joined names as its path, and nothing else, in the order of the paths, or an error |
| FolderTree.AtMostIsPathOrder | internal/repository/archive.go:109-109 | the bytewise order is an order of paths |
| Paths.AtMostExactly | internal/repository/archive.go:109-109 | the bytewise order is that of the first difference, a prefix coming first |
| FolderTree.EndsIffAcyclic | internal/repository/archive.go:83-106 | some round is empty if and only if no live path leads from the root back to itself |
| FolderTree.CycleNeverEnds | internal/repository/archive.go:94-106 | a folder that is its own parent: no round of the working table is ever empty |
| FolderTree.LevelSource | internal/repository/archive.go:96-105 | a row of round n belongs to a live folder n levels below the root and carries its path |
| FolderTree.LevelComplete | internal/repository/archive.go:96-105 | every live folder n levels below the root is in round n |
| FileQuery.LatestIsLatest | internal/repository/archive.go:182-193 | the version joined in is one of the file's and no other has a higher number; none if and only if the file has none |
| FileQuery.ResolveSource | internal/repository/archive.go:167-194 | every result row comes from a folder row and a live file with the same owner and a version |
| FileQuery.ResolveComplete | internal/repository/archive.go:167-194 | every such pair gives a result row |
| FileQuery.RowMeans | internal/repository/archive.go:167-194 | every result row is a live file of a listed folder with that folder's owner, at the folder's path and its own name, with number, host, location, size and hash of its newest version |
| FileQuery.RowGiven | internal/repository/archive.go:167-194 | every such file that has a version has a result row, at a version no older than any of its own |
| FileQuery.OneRowPerFile | internal/repository/archive.go:167-198 | a file occurs once, so the paging keys are unique |
| Keyset.GetFiles | internal/repository/archive.go:205-225 | the loop returns the concatenation of the pages its queries see, or the error of the first query that fails |
| Keyset.PagingExact | internal/repository/archive.go:195-225 | whatever the database does between pages: keys strictly increase, every row was in a snapshot asked, and a key present in every snapshot asked is listed |
| Keyset.PagingFixed | internal/repository/archive.go:205-225 | on an unchanging snapshot the loop ends within one query per full page and one more, with exactly the sorted listing |
| Keyset.QueriesExact | internal/repository/archive.go:205-225 | on an unchanging snapshot the loop makes exactly one query per full page of 5000 rows and one more, and ends in an error exactly when fewer are answered |
| Keyset.ByPathThenIdIsStrictTotal | internal/repository/archive.go:197-198 | the bytewise order on (path, file ID) is a strict total order |
| Manifest.BuildManifest | internal/service/archive.go:248-284 | whatever the database does between the queries: the folders of the first snapshot in path order, the files of the pages that the later ones give, both rebased; the folders without files under them; the number of the files and, when it fits 64 bits, the sum of their sizes; or an error when a query fails |
| Manifest.ManifestTotals | internal/service/archive.go:270-282 | the manifest counts its own files, and its total is the sum of their declared sizes whenever that sum fits 64 bits |
| Manifest.FixedManifest | internal/service/archive.go:248-284 | when every query sees one snapshot the paging ends and the manifest is the sorted listing of that snapshot's tree |
| Manifest.TotalExactly | internal/service/archive.go:270-273 | the total is the sum of the sizes if and only if the sum fits 64 bits |
| Manifest.TotalCanWrap | internal/service/archive.go:270-273 | two different files of 2^62 bytes total the smallest 64-bit integer |
| Manifest.CheckedTarNeverOverCap | internal/service/archive.go:231-235 | after the check of its total a TAR run over the manifest that was built cannot fail on the size limit, and its final counter is the total |
| Generator.CopyIsWhole | internal/archive/zip.go:250-252 | however it ends, a copy has put a prefix of its data into the entry; success means all of it; TAR owes exactly that much less |
| Generator.FileIsWhole | internal/archive/zip.go:238-263 | when writeFile succeeds the new entry holds the whole body, which was read to its end and fits the cap |
| Generator.CapBoundsContent | internal/archive/zip.go:188-263 | however a run ends, and for every cap a 64-bit integer can hold, at most MaxSizeBytes+1 content bytes are in the archive |
| Generator.SuccessIsWhole | internal/archive/zip.go:188-233 | a run that succeeds has closed an archive of every file whole at its cleaned path, then every empty folder; the counter is the total, within the cap; the callbacks are the running totals |
| Generator.SuccessExactly | internal/archive/zip.go:188-263 | with a writer that does not fail a run succeeds if and only if no context, path or fetch failure occurs, every declared and actual prefix fits, and for TAR every size is true |
| Generator.StopMeans | internal/archive/zip.go:188-263 | a run that fails gives a reason that is true of one file, or of the folders after all files; the files before it are whole in what is left, at most a prefix of that file follows, and the callbacks are the running totals of the files before it |
| Generator.ZipCapExact | internal/archive/zip.go:204-206 | an otherwise untroubled ZIP run succeeds if and only if every prefix sum, and every prefix sum plus the next declared size, fits the cap |
| Generator.TarSizesTrue | internal/archive/zip.go:147-178 | a TAR run that succeeds has written exactly the declared size of every file, and its counter is the sum of the declared sizes |
| Generator.TarNeverOverCap | internal/archive/zip.go:204-262 | if the declared sizes fit the cap a TAR run never stops on the size limit |
| Generator.WholeExactly | internal/archive/zip.go:251-251 | a successful archive is whole if and only if the cap is below the largest 64-bit integer or all bodies are empty |
| GenerateLoop.LargestCapLosesContent | internal/archive/zip.go:251-252 | under the largest cap a ZIP run over one file of one byte succeeds with the entry empty |
| Generator.LargestCapDrains | internal/archive/zip.go:251-252 | under the largest cap a run that succeeds has emptied every file |
| GenerateLoop.ArchiveWriter.CreateFile | internal/archive/zip.go:134-166 | a new empty entry; TAR refuses while bytes are owed and then owes the declared size |
| GenerateLoop.ArchiveWriter.Write | internal/archive/zip.go:147-166 | the open entry grows by the chunk; TAR takes only what is owed and fails on more |
| GenerateLoop.CopyBuffer | internal/archive/zip.go:252-252 | the read-and-write loop, with reads of any length up to the buffer, is the copy specification |
| GenerateLoop.WriteFile | internal/archive/zip.go:238-263 | result, writer and counter are those of the file specification, on every failure path too |
| GenerateLoop.Generate | internal/archive/zip.go:188-233 | result, archive, counter and callbacks are those of the run specification; at most MaxSizeBytes+1 bytes are written; success is a closed, whole archive within the cap |
| EndToEnd.FilesAreTheTree | internal/service/archive.go:248-284 | on one snapshot with plain names, a successful run has exactly one file entry per reachable, live, owner-matching, versioned file, holding the whole body fetched for its latest version at its rebased path |
| EndToEnd.FoldersAreTheTree | internal/archive/zip.go:180-233 | the directories the entries imply are exactly the rebased paths of the live folders |
| EndToEnd.ZipSucceeds | internal/archive/zip.go:188-233 | with plain names, no colon as second byte and no failures, a ZIP run succeeds if and only if it is within the cap |
| EndToEnd.ColonNameDoomsJob | internal/archive/zip.go:194-226 | under such a root no run over an existing tree succeeds, whatever the cap and the world |
| EndToEnd.ZipUnderName | internal/archive/zip.go:188-233 | with plain names and no failures, a ZIP run under a chosen root succeeds if and only if its second byte is no colon and the files are within the cap |
| ChangingTree.StayingFileArchived | internal/repository/archive.go:205-225 | however the database changes between the queries, a file that belongs and stays at its path in every snapshot looked at has exactly one entry, whole, at its rebased path |
| ChangingTree.FoldersKept | internal/service/archive.go:248-284 | and every folder of the first snapshot is among the directories the archive implies |
| Pipeline.MakeArchive | internal/service/archive.go:216-240 | from snapshot and archive name to the archive: nothing if the name is refused, if the declared sizes sum, within 64 bits, to more than the cap, or if the run stops; otherwise, with plain names, the archive is the folder tree and within the cap |
| Pipeline.MadeExactly | internal/service/archive.go:231-240 | with a writer that does not fail, a job gives the whole archive if its total is within the cap and nothing stands in the way of the run, and fails otherwise |
| Pipeline.HonestExactly | internal/service/archive.go:216-240 | with true declared sizes that sum within 64 bits, and no fetch, path, context or writer failing, the job of a built manifest succeeds if and only if the sizes sum to at most the cap |
| Provenance.FinalWasGenerated | internal/service/archive.go:289-325 | whatever sits at a job's final path was generated earlier in the run, in full, by a worker of that job and to the job's one plan |
| TempFiles.NeverBoth | internal/storage/local.go:92-97 | in no state of a run does a job of this process have both a temp and a final file: only an earlier process can have left both |
| TempFiles.FinishedLeavesNoTemp | internal/service/archive.go:308-325 | a job whose ProcessJob has returned, however it ended, has no temp file, unless one of its worker's deletions failed earlier in the run |
| ServedTree.PublishedIsTheTree | internal/service/archive.go:289-325 | in a run whose workers generate as the pipeline does, whatever sits at a job's final path is an archive that is the folder tree of its request, within the cap |
| ServedTree.ServedIsTheTree | internal/handler/download.go:54-91 | in such a run whatever a download serves, wherever its three calls come, is that archive |
| ServedTree.TreeStaysDownloadable | internal/service/archive.go:196-358 | and it goes on being served up to the expiry, if every sweep that overlapped the published file saw the job unexpired |

## Left out

- HTTP routing, CORS, authentication, JSON bodies, logging and configuration parsing: plumbing.
- The download handler's headers and its streaming of the opened file.
- The storage HTTP client: a fetch is an arbitrary byte sequence, possibly cut off by a read error, or an error.
- ZIP compression and TAR byte layout: an archive is its list of entries, with the TAR writer's count of bytes still owed.
- In the job protocol an archive is the bytes of an arbitrary plan; `ServedTree` takes the runs in which the plan is the pipeline's wherever `Generate` succeeds, through an arbitrary byte layout; a file's share of those bytes also stands for its content when progress is counted.
- The SQL engine: tables are finite sequences, the recursive query is its iterated working table, the order is any strict total order on (path, file ID); a failed query is an error return, whatever its cause.
- Randomness and UUIDs: identifiers and tokens are arbitrary fresh values; constant-time comparison is equality.
- Naming.RootIsSafe: case folding and white space are those of ASCII; the other Unicode spaces and letters with an ASCII lower case are not modelled.
- Subdirectories of the archive directory.
- Fields of a job that no modelled decision reads (root folder, archive name, export type, archive path, update and start times).
- Several sweeps at once: the program runs one sweep goroutine.
- Locks: each call on the store, the tokens or the disk is one atomic step.
- LocalStorage.ArchiveDir.Create: returns no handle; writing through an open handle after its name is gone is modelled by the inodes of the job protocol.
- Cleanup.Sweep: failures of its calls, and steps of other actors in between, are modelled in the protocol's steps, not here.
- Draining.CanDrain: shows that a run-down exists; that every run of worker steps ends in one is DrainStep with RestIsExited; fairness of the Go scheduler is not modelled.
