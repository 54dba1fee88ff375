/**
 The in-memory print queue: pending jobs in FIFO order, plus the job and batch ids ever
 accepted by this process.

 `Contents` is the queue as a value, and `AcceptJob`, `AcceptBatch` and `PopNext` say what
 each operation does to it. The class `QueueState` is the mutable queue itself.
 */
module Queue {
  import opened Common
  import opened Protocol

  datatype QueuedJob = QueuedJob(
    requestId: string,
    batchId: Option<string>,
    job: PrintJob,
    localOrigin: Option<Origin>)

  datatype QueueError = DuplicateJobId | DuplicateBatchId | InvalidMessage

  type Acceptance = Result<Unit, QueueError>

  datatype Contents = Contents(pending: seq<QueuedJob>, seenJobIds: set<string>, seenBatchIds: set<string>)

  const EMPTY := Contents([], {}, {})

  /** A loopback origin is attached only to a job whose own URL has exactly that origin. */
  function LocalOriginFor(parse: UrlParser, job: PrintJob, allowed: Option<Origin>): Option<Origin> {
    if job.fileUrl.None? then None
    else
      match ValidateHtmlFileUrl(parse, job.fileUrl.value)
      case Err(_) => None
      case Ok(url) => if OriginOf(url) == allowed then allowed else None
  }

  /** The queue's own check of HTML jobs. */
  function ValidateHtmlSource(parse: UrlParser, job: PrintJob): Acceptance {
    if !job.format.Html? then Ok(Unit)
    else if !NonEmpty(job.fileUrl) then Err(InvalidMessage)
    else if ValidateHtmlFileUrl(parse, job.fileUrl.value).Err? then Err(InvalidMessage)
    else Ok(Unit)
  }

  /** The job ids of a list of queued jobs. */
  function IdsOf(jobs: seq<QueuedJob>): set<string> {
    set q | q in jobs :: q.job.jobId
  }

  function JobIds(jobs: seq<PrintJob>): set<string> {
    set job | job in jobs :: job.jobId
  }

  predicate DistinctIds(jobs: seq<PrintJob>) {
    forall i, j :: 0 <= i < j < |jobs| ==> jobs[i].jobId != jobs[j].jobId
  }

  function Enqueued(
    parse: UrlParser, requestId: string, batchId: Option<string>, job: PrintJob, allowed: Option<Origin>): QueuedJob
  {
    QueuedJob(requestId, batchId, job, LocalOriginFor(parse, job, allowed))
  }

  /** The queue entries for a whole batch, in the order the client listed the jobs. */
  function EnqueuedBatch(
    parse: UrlParser, requestId: string, batchId: string, jobs: seq<PrintJob>, allowed: Option<Origin>)
    : (r: seq<QueuedJob>)
    ensures |r| == |jobs|
  {
    seq(|jobs|, i requires 0 <= i < |jobs| => Enqueued(parse, requestId, Some(batchId), jobs[i], allowed))
  }

  function AcceptQueued(parse: UrlParser, q: Contents, queued: QueuedJob): (Acceptance, Contents) {
    if ValidateHtmlSource(parse, queued.job).Err? then (ValidateHtmlSource(parse, queued.job), q)
    else if queued.job.jobId in q.seenJobIds then (Err(DuplicateJobId), q)
    else (Ok(Unit), Contents(q.pending + [queued], q.seenJobIds + {queued.job.jobId}, q.seenBatchIds))
  }

  function AcceptJob(
    parse: UrlParser, q: Contents, requestId: string, job: PrintJob, allowed: Option<Origin>): (Acceptance, Contents)
  {
    AcceptQueued(parse, q, Enqueued(parse, requestId, None, job, allowed))
  }

  /** All or nothing: a batch enters only when every source, the batch id and every job id is fine. */
  function AcceptBatch(
    parse: UrlParser, q: Contents, requestId: string, batchId: string, jobs: seq<PrintJob>, allowed: Option<Origin>)
    : (Acceptance, Contents)
  {
    if exists i :: 0 <= i < |jobs| && ValidateHtmlSource(parse, jobs[i]).Err? then (Err(InvalidMessage), q)
    else if batchId in q.seenBatchIds then (Err(DuplicateBatchId), q)
    else if !DistinctIds(jobs) || JobIds(jobs) * q.seenJobIds != {} then (Err(DuplicateJobId), q)
    else
      (Ok(Unit), Contents(q.pending + EnqueuedBatch(parse, requestId, batchId, jobs, allowed),
                          q.seenJobIds + JobIds(jobs),
                          q.seenBatchIds + {batchId}))
  }

  function PopNext(q: Contents): (Option<QueuedJob>, Contents) {
    if q.pending == [] then (None, q) else (Some(q.pending[0]), q.(pending := q.pending[1..]))
  }

  lemma SourceErrors(parse: UrlParser, job: PrintJob)
    ensures ValidateHtmlSource(parse, job).Err? ==> ValidateHtmlSource(parse, job) == Err(InvalidMessage)
  {
  }

  lemma NoJobs(jobs: seq<PrintJob>)
    ensures JobIds(jobs[..0]) == {} && DistinctIds(jobs[..0])
  {
  }

  /** One more job of a list: its id joins the others, and is distinct unless it was there before. */
  lemma OneMoreId(jobs: seq<PrintJob>, n: nat)
    requires n < |jobs|
    ensures JobIds(jobs[..n + 1]) == JobIds(jobs[..n]) + {jobs[n].jobId}
    ensures jobs[n].jobId in JobIds(jobs)
    ensures DistinctIds(jobs[..n]) && jobs[n].jobId !in JobIds(jobs[..n]) ==> DistinctIds(jobs[..n + 1])
    ensures jobs[n].jobId in JobIds(jobs[..n]) ==> !DistinctIds(jobs)
  {
    assert jobs[..n + 1] == jobs[..n] + [jobs[n]];
    assert jobs[n] in jobs;
    assert forall i :: 0 <= i < n ==> jobs[i] in jobs[..n];
    if jobs[n].jobId in JobIds(jobs[..n]) {
      var earlier :| earlier in jobs[..n] && earlier.jobId == jobs[n].jobId;
      var i :| 0 <= i < n && jobs[i] == earlier;
    }
  }

  class QueueState {
    var pending: seq<QueuedJob>
    var seenJobIds: set<string>
    var seenBatchIds: set<string>

    function Value(): Contents
      reads this
    {
      Contents(pending, seenJobIds, seenBatchIds)
    }

    constructor ()
      ensures Value() == EMPTY
    {
      pending, seenJobIds, seenBatchIds := [], {}, {};
    }

    method AcceptQueuedJob(parse: UrlParser, queued: QueuedJob) returns (r: Acceptance)
      modifies this
      ensures (r, Value()) == AcceptQueued(parse, old(Value()), queued)
    {
      r := ValidateHtmlSource(parse, queued.job);
      if r.Err? {
        return;
      }
      if queued.job.jobId in seenJobIds {
        return Err(DuplicateJobId);
      }
      seenJobIds := seenJobIds + {queued.job.jobId};
      pending := pending + [queued];
      return Ok(Unit);
    }

    method AcceptJobWithLocalOrigin(parse: UrlParser, requestId: string, job: PrintJob, allowed: Option<Origin>)
      returns (r: Acceptance)
      modifies this
      ensures (r, Value()) == AcceptJob(parse, old(Value()), requestId, job, allowed)
    {
      var localOrigin := LocalOriginFor(parse, job, allowed);
      r := AcceptQueuedJob(parse, QueuedJob(requestId, None, job, localOrigin));
    }

    method AcceptBatchWithLocalOrigin(
      parse: UrlParser, requestId: string, batchId: string, jobs: seq<PrintJob>, allowed: Option<Origin>)
      returns (r: Acceptance)
      modifies this
      ensures (r, Value()) == AcceptBatch(parse, old(Value()), requestId, batchId, jobs, allowed)
    {
      hide ValidateHtmlSource, LocalOriginFor, JobIds, DistinctIds;
      NoJobs(jobs);
      for n := 0 to |jobs|
        invariant Value() == old(Value())
        invariant forall i :: 0 <= i < n ==> ValidateHtmlSource(parse, jobs[i]).Ok?
      {
        r := ValidateHtmlSource(parse, jobs[n]);
        if r.Err? {
          SourceErrors(parse, jobs[n]);
          return;
        }
      }
      if batchId in seenBatchIds {
        return Err(DuplicateBatchId);
      }

      var batchJobIds: set<string> := {};
      for n := 0 to |jobs|
        invariant Value() == old(Value())
        invariant batchJobIds == JobIds(jobs[..n])
        invariant batchJobIds * seenJobIds == {}
        invariant DistinctIds(jobs[..n])
      {
        OneMoreId(jobs, n);
        if jobs[n].jobId in seenJobIds || jobs[n].jobId in batchJobIds {
          assert jobs[n].jobId in seenJobIds ==> jobs[n].jobId in JobIds(jobs) * seenJobIds;
          return Err(DuplicateJobId);
        }
        batchJobIds := batchJobIds + {jobs[n].jobId};
      }
      assert jobs[..|jobs|] == jobs;

      seenBatchIds := seenBatchIds + {batchId};
      ghost var all := EnqueuedBatch(parse, requestId, batchId, jobs, allowed);
      for n := 0 to |jobs|
        invariant seenBatchIds == old(seenBatchIds) + {batchId}
        invariant seenJobIds == old(seenJobIds) + JobIds(jobs[..n])
        invariant pending == old(pending) + all[..n]
      {
        OneMoreId(jobs, n);
        assert all[..n + 1] == all[..n] + [all[n]];
        seenJobIds := seenJobIds + {jobs[n].jobId};
        var localOrigin := LocalOriginFor(parse, jobs[n], allowed);
        pending := pending + [QueuedJob(requestId, Some(batchId), jobs[n], localOrigin)];
      }
      assert all[..|jobs|] == all;
      return Ok(Unit);
    }

    method Pop() returns (next: Option<QueuedJob>)
      modifies this`pending
      ensures (next, Value()) == PopNext(old(Value()))
    {
      if pending == [] {
        return None;
      }
      next := Some(pending[0]);
      pending := pending[1..];
    }
  }
}
