/** The event stream of one SSE connection, and what every stream of every run looks like. */
module Sse {
  import opened Model
  import opened Protocol
  import opened ProtocolInvariant
  import opened ProtocolSteps
  import opened JobLifecycle

  datatype ProgressData = ProgressData(processedFiles: nat, totalFiles: nat, processedBytes: nat, totalBytes: nat)

  datatype ErrorText = Reason(reason: FailReason) | Generic | Unavailable

  datatype Event =
    | Progress(data: ProgressData)
    | Done(id: JobId, token: Option<Token>, expiresIn: int)
    | Error(text: ErrorText)

  /** What one `GetJob` poll answers; `Broken` is an error other than not-found. */
  datatype Poll = Found(job: JobRecord, now: Time) | Gone | Broken

  /** The HTTP answer to a connection attempt. */
  datatype Answer = Streaming | NotFound | ServerError

  function ProgressOf(job: JobRecord): ProgressData {
    ProgressData(job.processedFiles, job.totalFiles, job.processedBytes, job.totalBytes)
  }

  /** Time until the record's expiry; a zero expiry lies in the past. */
  function Remaining(job: JobRecord, now: Time): int {
    if job.expiresAt.Some? then job.expiresAt.value - now else 0 - now
  }

  function Farewell(job: JobRecord, now: Time): Event {
    if job.status == Completed
    then Done(job.id, job.token, Remaining(job, now))
    else Error(match job.error case Some(reason) => Reason(reason) case None => Generic)
  }

  /** The events a connection writes for its polls, given the last progress it sent. */
  function Stream(polls: seq<Poll>, last: Option<ProgressData>): seq<Event> {
    if polls == [] then []
    else match polls[0]
      case Gone => [Error(Unavailable)]
      case Broken => Stream(polls[1..], last)
      case Found(job, now) =>
        if Terminal(job.status) then [Farewell(job, now)]
        else if last == Some(ProgressOf(job)) then Stream(polls[1..], last)
        else [Progress(ProgressOf(job))] + Stream(polls[1..], Some(ProgressOf(job)))
  }

  class Connection {
    var out: seq<Event>
    var lastProgress: ProgressData
    var sentAny: bool

    constructor ()
      ensures out == [] && !sentAny
    {
      out, sentAny := [], false;
      lastProgress := ProgressData(0, 0, 0, 0);
    }

    ghost function Last(): Option<ProgressData>
      reads this
    {
      if sentAny then Some(lastProgress) else None
    }

    method Send(job: JobRecord, now: Time) returns (done: bool)
      modifies this
      ensures done == Terminal(job.status)
      ensures out == old(out) + Sent(Found(job, now), old(Last()))
      ensures Last() == if done then old(Last()) else Some(ProgressOf(job))
      ensures job.status == Completed ==>
                var left := if job.expiresAt.Some? then job.expiresAt.value - now else 0 - now;
                out == old(out) + [Done(job.id, job.token, left)]
      ensures job.status == Failed || job.status == Expired ==>
                out == old(out) + [Error(if job.error.Some? then Reason(job.error.value) else Generic)]
      ensures job.status == Queued || job.status == Processing ==>
                var data := ProgressData(job.processedFiles, job.totalFiles, job.processedBytes, job.totalBytes);
                && sentAny && lastProgress == data
                && out == if old(sentAny) && old(lastProgress) == data then old(out) else old(out) + [Progress(data)]
    {
      if job.status == Completed || job.status == Failed || job.status == Expired {
        out := out + [Farewell(job, now)];
        return true;
      }
      var progress := ProgressOf(job);
      if !sentAny || progress != lastProgress {
        out := out + [Progress(progress)];
        lastProgress, sentAny := progress, true;
      }
      return false;
    }

    /** Serves a connection whose successive polls answer `polls`, until a terminal event or
        until the client or the server goes away after the last of them.  A first poll that
        finds no job, or a writer that cannot flush, is answered without a stream. */
    method Events(polls: seq<Poll>, canFlush: bool) returns (answer: Answer)
      requires out == [] && !sentAny && polls != []
      modifies this
      ensures answer == match polls[0]
                        case Found(_, _) => if canFlush then Streaming else ServerError
                        case Gone => NotFound
                        case Broken => ServerError
      ensures out == if answer == Streaming then Stream(polls, None) else []
    {
      if !polls[0].Found? {
        return if polls[0].Gone? then NotFound else ServerError;
      }
      if !canFlush {
        return ServerError;
      }
      answer := Streaming;
      var done := Send(polls[0].job, polls[0].now);
      StreamSplit(polls, 0, None);
      assert polls[0..] == polls;
      if !done {
        Follow(polls[1..]);
      }
    }

    method Handle(poll: Poll) returns (done: bool)
      modifies this
      ensures done == Ends(poll)
      ensures out == old(out) + Sent(poll, old(Last())) && (!done ==> Last() == LastAfter(poll, old(Last())))
    {
      done := false;
      match poll {
        case Gone =>
          out := out + [Error(Unavailable)];
          done := true;
        case Broken =>
        case Found(job, now) =>
          done := Send(job, now);
      }
    }

    /** The polling loop. */
    method Follow(polls: seq<Poll>)
      modifies this
      ensures out == old(out) + Stream(polls, old(Last()))
    {
      ghost var all := old(out) + Stream(polls, old(Last()));
      var i := 0;
      assert polls[0..] == polls;
      while i < |polls|
        invariant 0 <= i <= |polls|
        invariant out + Stream(polls[i..], Last()) == all
      {
        StreamSplit(polls, i, Last());
        ghost var rest := if Ends(polls[i]) then [] else Stream(polls[i + 1..], LastAfter(polls[i], Last()));
        assert out + (Sent(polls[i], Last()) + rest) == out + Sent(polls[i], Last()) + rest;
        var done := Handle(polls[i]);
        if done {
          return;
        }
        i := i + 1;
      }
    }
  }

  /** What one poll adds to the stream, whether it ends it, and the progress sent last then. */
  function Sent(poll: Poll, last: Option<ProgressData>): seq<Event> {
    match poll
    case Gone => [Error(Unavailable)]
    case Broken => []
    case Found(job, now) =>
      if Terminal(job.status) then [Farewell(job, now)]
      else if last == Some(ProgressOf(job)) then [] else [Progress(ProgressOf(job))]
  }

  predicate Ends(poll: Poll) {
    poll.Gone? || (poll.Found? && Terminal(poll.job.status))
  }

  function LastAfter(poll: Poll, last: Option<ProgressData>): Option<ProgressData> {
    if poll.Found? then Some(ProgressOf(poll.job)) else last
  }

  /** Taking the `i`-th poll apart. */
  lemma {:induction false} StreamSplit(polls: seq<Poll>, i: nat, last: Option<ProgressData>)
    requires i < |polls|
    ensures Stream(polls[i..], last) ==
            Sent(polls[i], last) + if Ends(polls[i]) then [] else Stream(polls[i + 1..], LastAfter(polls[i], last))
  {
    assert polls[i..][1..] == polls[i + 1..];
  }

  // ----- every event says what its poll found -----

  /** `e` is true of what `poll` found. */
  predicate TrueOf(e: Event, poll: Poll) {
    match e
    case Progress(data) =>
      && poll.Found? && (poll.job.status == Queued || poll.job.status == Processing)
      && data.processedFiles == poll.job.processedFiles && data.totalFiles == poll.job.totalFiles
      && data.processedBytes == poll.job.processedBytes && data.totalBytes == poll.job.totalBytes
    case Done(id, token, expiresIn) =>
      && poll.Found? && poll.job.status == Completed && poll.job.id == id && poll.job.token == token
      && (poll.job.expiresAt.Some? ==> poll.now + expiresIn == poll.job.expiresAt.value)
    case Error(text) =>
      match text
      case Unavailable => poll.Gone?
      case Reason(reason) =>
        poll.Found? && (poll.job.status == Failed || poll.job.status == Expired) && poll.job.error == Some(reason)
      case Generic =>
        poll.Found? && (poll.job.status == Failed || poll.job.status == Expired) && poll.job.error == None
  }

  /** Every event of a stream is true of one of its polls. */
  lemma {:induction false} EventSource(polls: seq<Poll>, last: Option<ProgressData>, k: nat) returns (i: nat)
    requires k < |Stream(polls, last)|
    ensures i < |polls| && TrueOf(Stream(polls, last)[k], polls[i])
  {
    var rest := polls[1..];
    if polls[0].Broken? {
      i := EventSource(rest, last, k);
      i := i + 1;
    } else if polls[0].Found? && !Terminal(polls[0].job.status) {
      var progress := ProgressOf(polls[0].job);
      if last == Some(progress) {
        i := EventSource(rest, last, k);
        i := i + 1;
      } else if k == 0 {
        i := 0;
      } else {
        i := EventSource(rest, Some(progress), k - 1);
        i := i + 1;
      }
    } else {
      i := 0;
    }
  }

  /** The first poll that finds the job terminal or gone, if any, is answered: the stream ends in an
      event true of it. */
  lemma {:induction false} EndIsTold(polls: seq<Poll>, last: Option<ProgressData>, i: nat)
    requires i < |polls| && Ends(polls[i]) && forall j :: 0 <= j < i ==> !Ends(polls[j])
    ensures var out := Stream(polls, last); |out| > 0 && !out[|out| - 1].Progress? && TrueOf(out[|out| - 1], polls[i])
  {
    if i > 0 {
      var rest := polls[1..];
      assert rest[i - 1] == polls[i] && forall j :: 0 <= j < i - 1 ==> rest[j] == polls[j + 1];
      EndIsTold(rest, LastAfter(polls[0], last), i - 1);
      if polls[0].Broken? {
      } else if last != Some(ProgressOf(polls[0].job)) {
        var out := Stream(rest, Some(ProgressOf(polls[0].job)));
        assert ([Progress(ProgressOf(polls[0].job))] + out)[|out|] == out[|out| - 1];
      }
    }
  }

  // ----- the shape of every stream -----

  predicate NotAfter(a: ProgressData, b: ProgressData) {
    a.processedFiles <= b.processedFiles && a.processedBytes <= b.processedBytes
  }

  /** Progress events, each different from the one before it and never behind it, then at
      most one terminal event and nothing after it. */
  predicate WellFormed(events: seq<Event>) {
    if events == [] then true
    else if !events[0].Progress? then |events| == 1
    else
      && events[0].data.processedFiles <= events[0].data.totalFiles
      && (|events| > 1 && events[1].Progress? ==>
            events[0].data != events[1].data && NotAfter(events[0].data, events[1].data))
      && WellFormed(events[1..])
  }

  /** Later polls show the same job, further on. */
  predicate Advancing(polls: seq<Poll>) {
    && (forall i :: 0 <= i < |polls| && polls[i].Found? ==> polls[i].job.processedFiles <= polls[i].job.totalFiles)
    && (forall i, j :: 0 <= i < j < |polls| && polls[i].Found? && polls[j].Found? ==>
          Advances(polls[i].job, polls[j].job))
  }

  lemma {:induction false} StreamWellFormed(polls: seq<Poll>, last: Option<ProgressData>)
    requires Advancing(polls)
    requires last.Some? ==> forall i :: 0 <= i < |polls| && polls[i].Found? ==>
                                          NotAfter(last.value, ProgressOf(polls[i].job))
    ensures WellFormed(Stream(polls, last))
    ensures var out := Stream(polls, last);
            last.Some? && out != [] && out[0].Progress? ==>
              out[0].data != last.value && NotAfter(last.value, out[0].data)
  {
    if polls != [] && !polls[0].Gone? {
      var rest := polls[1..];
      assert forall i :: 0 <= i < |rest| ==> rest[i] == polls[i + 1];
      if polls[0].Found? && !Terminal(polls[0].job.status) {
        StreamWellFormed(rest, Some(ProgressOf(polls[0].job)));
        var out := Stream(rest, Some(ProgressOf(polls[0].job)));
        assert ([Progress(ProgressOf(polls[0].job))] + out)[1..] == out;
      } else {
        StreamWellFormed(rest, last);
      }
    }
  }

  /** The polls a connection for `id` makes at states `at[0], at[1], ...` of a run. */
  ghost predicate Sampled(run: seq<State>, id: JobId, at: seq<nat>, polls: seq<Poll>) {
    && |at| == |polls|
    && (forall i :: 0 <= i < |at| ==> at[i] < |run|)
    && (forall i, j :: 0 <= i < j < |at| ==> at[i] <= at[j])
    && (forall i :: 0 <= i < |at| ==>
          || polls[i] == Broken
          || polls[i] == (if id in run[at[i]].jobs then Found(run[at[i]].jobs[id], run[at[i]].now) else Gone))
  }

  /** Every stream, in every run of the job protocol, is well formed. */
  lemma {:induction false} StreamsAreWellFormed(run: seq<State>, id: JobId, at: seq<nat>, polls: seq<Poll>)
    requires Run(run) && Sampled(run, id, at, polls)
    ensures WellFormed(Stream(polls, None))
  {
    forall i | 0 <= i < |polls| && polls[i].Found? ensures polls[i].job.processedFiles <= polls[i].job.totalFiles {
      NoneStuck(run, at[i], id);
    }
    forall i, j | 0 <= i < j < |polls| && polls[i].Found? && polls[j].Found?
      ensures Advances(polls[i].job, polls[j].job)
    {
      RecordsAdvance(run, at[i], at[j], id);
    }
    StreamWellFormed(polls, None);
  }

  /** In every run, what a stream says was so: a completion names the job's own record, its token and
      its expiry as stored at that moment, an error the reason the job failed with, and a progress
      event the counters stored. */
  lemma {:induction false} StreamsAreTrue(run: seq<State>, id: JobId, at: seq<nat>, polls: seq<Poll>, k: nat)
    returns (i: nat)
    requires Run(run) && Sampled(run, id, at, polls) && k < |Stream(polls, None)|
    ensures i < |at| && at[i] < |run|
    ensures match Stream(polls, None)[k]
            case Progress(data) =>
              && id in run[at[i]].jobs
              && (run[at[i]].jobs[id].status == Queued || run[at[i]].jobs[id].status == Processing)
              && data == ProgressData(run[at[i]].jobs[id].processedFiles, run[at[i]].jobs[id].totalFiles,
                                      run[at[i]].jobs[id].processedBytes, run[at[i]].jobs[id].totalBytes)
            case Done(x, token, expiresIn) =>
              && x == id && id in run[at[i]].jobs && run[at[i]].jobs[id].status == Completed
              && token.Some? && run[at[i]].jobs[id].token == token
              && run[at[i]].jobs[id].expiresAt == Some(run[at[i]].now + expiresIn)
            case Error(text) =>
              if id in run[at[i]].jobs
              then && run[at[i]].jobs[id].status == Failed
                   && text.Reason? && run[at[i]].jobs[id].error == Some(text.reason)
              else text == Unavailable
  {
    i := EventSource(polls, None, k);
    if id in run[at[i]].jobs {
      RecordIsOwn(run, at[i], id);
    }
  }

  lemma {:induction false} RecordIsOwn(run: seq<State>, k: nat, id: JobId)
    requires Run(run) && k < |run| && id in run[k].jobs
    ensures run[k].jobs[id].id == id
    ensures Terminal(run[k].jobs[id].status) ==> Closed(run[k].jobs[id])
  {
    RunInv(run, k);
    if Terminal(run[k].jobs[id].status) {
      TerminalFinished(run[k], id);
    }
  }
}
