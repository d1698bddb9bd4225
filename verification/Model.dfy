/** The values shared by every part of the archive service.

    Go strings and byte slices are byte sequences; a `string` here is such a sequence, one
    `char` per byte.  Times are natural numbers on one monotone clock, and a Go zero time is
    `None`.
 */
module Model {
  datatype Option<+T> = None | Some(value: T)

  datatype JobId = JobId(text: string)
  datatype Token = Token(text: string)
  type Bytes = string
  type Time = nat

  datatype ExportType = Zip | Tar

  /** `Expired` is declared by the service but no code path ever stores it. */
  datatype JobStatus = Queued | Processing | Completed | Failed | Expired

  /** The four messages `failJob` may show to a client. */
  datatype FailReason = ManifestUnreadable | TooLarge | GenerationFailed | TokenNotIssued

  /** The value of one job: what a `Job` object holds, without its identity. */
  datatype JobRecord = JobRecord(
    id: JobId,
    status: JobStatus,
    totalFiles: nat,
    processedFiles: nat,
    totalBytes: nat,
    processedBytes: nat,
    error: Option<FailReason>,
    token: Option<Token>,
    createdAt: Time,
    completedAt: Option<Time>,
    expiresAt: Option<Time>)

  function NewJob(id: JobId, createdAt: Time): JobRecord {
    JobRecord(id, Queued, 0, 0, 0, 0, None, None, createdAt, None, None)
  }

  predicate Terminal(status: JobStatus) {
    status == Completed || status == Failed || status == Expired
  }

  function Deadline(job: JobRecord, ttlFallback: nat): Time {
    match job.expiresAt
    case Some(t) => t
    case None => job.createdAt + ttlFallback
  }

  /** `isExpired`: strictly past the deadline. */
  predicate IsExpired(job: JobRecord, ttlFallback: nat, now: Time) {
    now > Deadline(job, ttlFallback)
  }

  datatype TokenEntry = TokenEntry(jobId: JobId, expiresAt: Time)

  datatype TokenVerdict = Valid | Invalid | Lapsed

  /** What presenting `tok` for `jobId` at time `now` answers. */
  function Validate(tokens: map<Token, TokenEntry>, jobId: JobId, tok: Token, now: Time): TokenVerdict {
    if tok !in tokens || tokens[tok].jobId != jobId then Invalid
    else if now > tokens[tok].expiresAt then Lapsed
    else Valid
  }

  /** The token table after every token of `jobId` has been revoked. */
  function Revoked(tokens: map<Token, TokenEntry>, jobId: JobId): map<Token, TokenEntry> {
    map tok | tok in tokens && tokens[tok].jobId != jobId :: tokens[tok]
  }

  /** A folder of the tree, with its path inside the archive. */
  datatype ArchiveFolder = ArchiveFolder(folderId: string, name: string, path: string)

  /** A file resolved to its latest version, with its path inside the archive. */
  datatype ArchiveFile = ArchiveFile(
    fileId: string,
    name: string,
    path: string,
    version: nat,
    hostedAt: string,
    location: string,
    size: nat,
    hash: string)
}
