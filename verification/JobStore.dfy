/** `MemoryStore`: jobs as heap objects, copied on every crossing. */
module JobStore {
  import opened Model

  /** What a `*time.Time` points to. */
  class TimeCell {
    var at: Time

    constructor (at: Time)
      ensures this.at == at
    {
      this.at := at;
    }
  }

  class Job {
    var id: JobId
    var status: JobStatus
    var totalFiles: nat
    var processedFiles: nat
    var totalBytes: nat
    var processedBytes: nat
    var error: Option<FailReason>
    var token: Option<Token>
    var createdAt: Time
    var completedAt: TimeCell?
    var expiresAt: Option<Time>

    function Value(): JobRecord
      reads this, completedAt
    {
      JobRecord(id, status, totalFiles, processedFiles, totalBytes, processedBytes, error, token, createdAt,
                if completedAt == null then None else Some(completedAt.at), expiresAt)
    }

    /** The objects a holder of this job can write to. */
    ghost function Reach(): set<object>
      reads this
    {
      if completedAt == null then {this} else {this, completedAt}
    }

    constructor (v: JobRecord)
      ensures Value() == v && fresh(Reach())
    {
      id, status, totalFiles, processedFiles := v.id, v.status, v.totalFiles, v.processedFiles;
      totalBytes, processedBytes, error, token := v.totalBytes, v.processedBytes, v.error, v.token;
      createdAt, expiresAt := v.createdAt, v.expiresAt;
      if v.completedAt.Some? {
        completedAt := new TimeCell(v.completedAt.value);
      } else {
        completedAt := null;
      }
    }

    method Clone() returns (clone: Job)
      ensures fresh(clone.Reach()) && clone.Value() == Value()
    {
      clone := new Job(JobRecord(id, status, totalFiles, processedFiles, totalBytes, processedBytes, error, token,
                                 createdAt, None, expiresAt));
      if completedAt != null {
        clone.completedAt := new TimeCell(completedAt.at);
      }
    }

    /** A holder writes to the job as it likes, through the completion cell where there is one. */
    method Overwrite(v: JobRecord)
      modifies Reach()
      ensures Value() == v && fresh(Reach() - old(Reach()))
    {
      id, status, totalFiles, processedFiles := v.id, v.status, v.totalFiles, v.processedFiles;
      totalBytes, processedBytes, error, token := v.totalBytes, v.processedBytes, v.error, v.token;
      createdAt, expiresAt := v.createdAt, v.expiresAt;
      if v.completedAt.None? {
        completedAt := null;
      } else if completedAt == null {
        completedAt := new TimeCell(v.completedAt.value);
      } else {
        completedAt.at := v.completedAt.value;
      }
    }
  }

  class MemoryStore {
    var jobs: map<JobId, Job>
    ghost var repr: set<object>

    /** Every stored job and its cell belong to the store, under the job's own ID. */
    ghost predicate Valid()
      reads this, repr
    {
      && this in repr
      && forall id :: id in jobs ==> jobs[id] in repr && jobs[id].Reach() <= repr && jobs[id].id == id
    }

    /** The plain map the store stands for. */
    ghost function Contents(): map<JobId, JobRecord>
      reads this, repr
      requires Valid()
    {
      map id | id in jobs :: jobs[id].Value()
    }

    constructor ()
      ensures Valid() && fresh(repr) && Contents() == map[]
    {
      jobs, repr := map[], {this};
    }

    /** Stores a copy under the job's ID. */
    method Put(j: Job)
      requires Valid()
      modifies this
      ensures Valid() && fresh(repr - old(repr))
      ensures Contents() == old(Contents())[j.id := j.Value()]
    {
      var clone := j.Clone();
      jobs := jobs[j.id := clone];
      repr := repr + clone.Reach();
    }

    method Create(j: Job) returns (ok: bool)
      requires Valid()
      modifies this
      ensures Valid() && fresh(repr - old(repr))
      ensures ok <==> j.id !in old(Contents())
      ensures Contents() == if ok then old(Contents())[j.id := j.Value()] else old(Contents())
    {
      ok := j.id !in jobs;
      if ok {
        Put(j);
      }
    }

    method Get(id: JobId) returns (j: Option<Job>)
      requires Valid()
      ensures j.Some? <==> id in Contents()
      ensures j.Some? ==> fresh(j.value.Reach()) && j.value.Value() == Contents()[id]
    {
      if id !in jobs {
        return None;
      }
      var clone := jobs[id].Clone();
      return Some(clone);
    }

    method Update(j: Job) returns (ok: bool)
      requires Valid()
      modifies this
      ensures Valid() && fresh(repr - old(repr))
      ensures ok <==> j.id in old(Contents())
      ensures Contents() == if ok then old(Contents())[j.id := j.Value()] else old(Contents())
    {
      ok := j.id in jobs;
      if ok {
        Put(j);
      }
    }

    method Delete(id: JobId)
      requires Valid()
      modifies this
      ensures Valid() && repr == old(repr)
      ensures Contents() == old(Contents()) - {id}
    {
      jobs := jobs - {id};
    }

    /** Copies of all jobs, in the arbitrary order of a map; `values` says what they hold. */
    method List() returns (listed: seq<Job>, ghost values: seq<JobRecord>)
      requires Valid()
      ensures Apart(listed) && Hold(listed, values)
      ensures forall i :: 0 <= i < |listed| ==> fresh(listed[i].Reach())
      ensures IsListing(values, Contents())
    {
      listed, values := CopyAll(jobs, Contents());
    }
  }

  // ----- many jobs at once -----

  /** No two of these jobs share an object. */
  ghost predicate Apart(held: seq<Job>)
    reads held
  {
    forall i, j :: 0 <= i < j < |held| ==> held[i].Reach() !! held[j].Reach()
  }

  /** These jobs have these values. */
  ghost predicate Hold(held: seq<Job>, values: seq<JobRecord>)
    reads held, set j | j in held :: j.completedAt
  {
    |held| == |values| && forall i :: 0 <= i < |held| ==> held[i].Value() == values[i]
  }

  /** One more copy among jobs that share nothing. */
  method WithCopy(held: seq<Job>, ghost values: seq<JobRecord>, j: Job)
      returns (more: seq<Job>, ghost known: seq<JobRecord>)
    requires Apart(held) && Hold(held, values)
    ensures |more| == |held| + 1 && more[..|held|] == held && fresh(more[|held|].Reach())
    ensures Apart(more) && Hold(more, known) && known == values + [j.Value()]
  {
    var clone := j.Clone();
    more := held + [clone];
    known := values + [j.Value()];
  }

  /** Copies of the jobs of a map, one by one. */
  method CopyAll(jobs: map<JobId, Job>, ghost contents: map<JobId, JobRecord>)
      returns (listed: seq<Job>, ghost values: seq<JobRecord>)
    requires contents.Keys == jobs.Keys
    requires forall id :: id in jobs ==> jobs[id].Value() == contents[id] && contents[id].id == id
    ensures Apart(listed) && Hold(listed, values)
    ensures forall i :: 0 <= i < |listed| ==> fresh(listed[i].Reach())
    ensures IsListing(values, contents)
  {
    listed, values := [], [];
    var todo := jobs.Keys;
    while todo != {}
      invariant todo <= jobs.Keys
      invariant Apart(listed) && Hold(listed, values)
      invariant forall i :: 0 <= i < |listed| ==> fresh(listed[i].Reach())
      invariant IsListing(values, contents - todo)
      decreases todo
    {
      var id :| id in todo;
      ListingGrows(values, contents, todo, id);
      listed, values := WithCopy(listed, values, jobs[id]);
      todo := todo - {id};
    }
    assert contents - {} == contents;
  }

  /** `listed` names every job of `contents` exactly once. */
  ghost predicate IsListing(listed: seq<JobRecord>, contents: map<JobId, JobRecord>) {
    && (forall i, j :: 0 <= i < j < |listed| ==> listed[i].id != listed[j].id)
    && (forall i :: 0 <= i < |listed| ==> listed[i].id in contents && contents[listed[i].id] == listed[i])
    && (forall id :: id in contents ==> contents[id].id == id && contents[id] in listed)
  }

  lemma {:induction false} ListingGrows(listed: seq<JobRecord>, contents: map<JobId, JobRecord>,
      todo: set<JobId>, id: JobId)
    requires IsListing(listed, contents - todo) && id in todo && todo <= contents.Keys && contents[id].id == id
    ensures IsListing(listed + [contents[id]], contents - (todo - {id}))
  {
    var more := listed + [contents[id]];
    forall k | k in contents - (todo - {id}) ensures contents[k].id == k && contents[k] in more {
      if k != id {
        assert k in contents - todo;
      }
    }
  }
}
