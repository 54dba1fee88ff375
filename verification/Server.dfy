/**
 What one WebSocket `print` or `print_batch` message does: field validation, the loopback
 origin rule for HTML pages, and the queue's acceptance.
 */
module Server {
  import opened Common
  import opened Protocol
  import opened Queue

  datatype Request =
    | Print(requestId: string, job: PrintJob)
    | PrintBatch(requestId: string, batchId: string, jobs: seq<PrintJob>)

  /** The configuration values read while one message is handled. */
  datatype Limits = Limits(maxFileSizeMb: nat, maxBatchJobs: nat)

  datatype ErrorCode = InvalidMessageCode | FileTooLargeCode | BatchTooLargeCode | JobDuplicated | BatchDuplicated

  datatype Response = JobQueued(requestId: string, jobId: string) | Refused(requestId: string, code: ErrorCode)

  /** The reply, the job ids newly bound to the connection, and the queue afterwards. */
  datatype Outcome = Outcome(response: Response, acceptedIds: seq<string>, queue: Contents)

  function JobsOf(request: Request): seq<PrintJob> {
    match request
    case Print(_, job) => [job]
    case PrintBatch(_, _, jobs) => jobs
  }

  function IdSeq(jobs: seq<PrintJob>): (ids: seq<string>)
    ensures |ids| == |jobs|
    ensures forall i :: 0 <= i < |jobs| ==> ids[i] == jobs[i].jobId
  {
    seq(|jobs|, i requires 0 <= i < |jobs| => jobs[i].jobId)
  }

  predicate IsExactLoopback(url: Url) {
    url.host == Some("127.0.0.1") || url.host == Some("::1")
  }

  /** The page URL of an HTML job that points at the local machine. */
  function LoopbackPage(parse: UrlParser, job: PrintJob): Option<Url> {
    if !job.format.Html? || job.fileUrl.None? then None
    else
      match ValidateHtmlFileUrl(parse, job.fileUrl.value)
      case Err(_) => None
      case Ok(url) => if IsExactLoopback(url) then Some(url) else None
  }

  predicate HasLoopbackPage(parse: UrlParser, jobs: seq<PrintJob>) {
    exists i :: 0 <= i < |jobs| && LoopbackPage(parse, jobs[i]).Some?
  }

  /** The connection's own page address, when it is a loopback address. */
  function LoopbackClient(parse: UrlParser, origin: Option<string>): Option<Url> {
    if origin.None? then None
    else
      match parse(origin.value)
      case None => None
      case Some(url) => if IsExactLoopback(url) then Some(url) else None
  }

  datatype OriginRefusal = LoopbackClientRequired | OriginMismatch

  /** Which loopback origin, if any, this message's HTML jobs may open. */
  function HtmlLocalOrigin(parse: UrlParser, jobs: seq<PrintJob>, origin: Option<string>)
    : Result<Option<Origin>, OriginRefusal>
  {
    if !HasLoopbackPage(parse, jobs) then Ok(None)
    else
      match LoopbackClient(parse, origin)
      case None => Err(LoopbackClientRequired)
      case Some(client) =>
        if exists i :: 0 <= i < |jobs| && LoopbackPage(parse, jobs[i]).Some?
                       && !SameOrigin(LoopbackPage(parse, jobs[i]).value, client)
        then Err(OriginMismatch)
        else Ok(OriginOf(client))
  }

  /** The first job that acceptance turns down decides the error of the whole message. */
  function FirstRefusal(codecs: Codecs, jobs: seq<PrintJob>, maxFileSizeMb: nat): (r: Validation)
    ensures r.Ok? <==> forall i :: 0 <= i < |jobs| ==> ValidateForAcceptance(codecs, jobs[i], maxFileSizeMb).Ok?
  {
    if jobs == [] then Ok(Unit)
    else if ValidateForAcceptance(codecs, jobs[0], maxFileSizeMb).Err? then
      ValidateForAcceptance(codecs, jobs[0], maxFileSizeMb)
    else
      assert forall i :: 0 < i < |jobs| ==> jobs[i] == jobs[1..][i - 1];
      FirstRefusal(codecs, jobs[1..], maxFileSizeMb)
  }

  function ValidationCode(error: JobValidationError): ErrorCode {
    if error.FileTooLarge? then FileTooLargeCode else InvalidMessageCode
  }

  function QueueCode(error: QueueError): ErrorCode {
    match error
    case DuplicateJobId => JobDuplicated
    case DuplicateBatchId => BatchDuplicated
    case InvalidMessage => InvalidMessageCode
  }

  /** The queue's part of a message that passed validation and the origin rule. */
  function Accept(parse: UrlParser, q: Contents, request: Request, allowed: Option<Origin>): (Acceptance, Contents) {
    match request
    case Print(requestId, job) => AcceptJob(parse, q, requestId, job, allowed)
    case PrintBatch(requestId, batchId, jobs) => AcceptBatch(parse, q, requestId, batchId, jobs, allowed)
  }

  function Handle(codecs: Codecs, limits: Limits, origin: Option<string>, request: Request, q: Contents): Outcome {
    var jobs := JobsOf(request);
    var refuse := (code: ErrorCode) => Outcome(Refused(request.requestId, code), [], q);
    if request.PrintBatch? && |jobs| > limits.maxBatchJobs then refuse(BatchTooLargeCode)
    else
      match FirstRefusal(codecs, jobs, limits.maxFileSizeMb)
      case Err(error) => refuse(ValidationCode(error))
      case Ok(_) =>
        match HtmlLocalOrigin(codecs.parseUrl, jobs, origin)
        case Err(_) => refuse(InvalidMessageCode)
        case Ok(allowed) =>
          var (accepted, queue) := Accept(codecs.parseUrl, q, request, allowed);
          match accepted
          case Err(error) => Outcome(Refused(request.requestId, QueueCode(error)), [], queue)
          case Ok(_) =>
            var name := if request.Print? then request.job.jobId else request.batchId;
            Outcome(JobQueued(request.requestId, name), IdSeq(jobs), queue)
  }

  /** The handler itself, acting on the shared queue. */
  method HandleClientText(codecs: Codecs, limits: Limits, origin: Option<string>, request: Request, queue: QueueState)
    returns (response: Response, acceptedIds: seq<string>)
    modifies queue
    ensures Outcome(response, acceptedIds, queue.Value())
            == Handle(codecs, limits, origin, request, old(queue.Value()))
    ensures response.JobQueued? <==> IsAcceptable(codecs, limits, origin, request, old(queue.Value()))
  {
    hide IsAcceptable;
    ghost var _ := AnsweredExactly(codecs, limits, origin, request, queue.Value());
    var jobs := JobsOf(request);
    if request.PrintBatch? && |jobs| > limits.maxBatchJobs {
      return Refused(request.requestId, BatchTooLargeCode), [];
    }
    for n := 0 to |jobs|
      invariant queue.Value() == old(queue.Value())
      invariant FirstRefusal(codecs, jobs, limits.maxFileSizeMb)
                == FirstRefusal(codecs, jobs[n..], limits.maxFileSizeMb)
    {
      assert jobs[n..][1..] == jobs[n + 1..];
      var verdict := ValidateForAcceptance(codecs, jobs[n], limits.maxFileSizeMb);
      if verdict.Err? {
        return Refused(request.requestId, ValidationCode(verdict.error)), [];
      }
    }
    var rule := HtmlLocalOrigin(codecs.parseUrl, jobs, origin);
    if rule.Err? {
      return Refused(request.requestId, InvalidMessageCode), [];
    }
    var result: Acceptance;
    match request {
      case Print(requestId, job) =>
        result := queue.AcceptJobWithLocalOrigin(codecs.parseUrl, requestId, job, rule.value);
        response := JobQueued(requestId, job.jobId);
      case PrintBatch(requestId, batchId, batch) =>
        result := queue.AcceptBatchWithLocalOrigin(codecs.parseUrl, requestId, batchId, batch, rule.value);
        response := JobQueued(requestId, batchId);
    }
    if result.Err? {
      return Refused(request.requestId, QueueCode(result.error)), [];
    }
    acceptedIds := IdSeq(jobs);
  }

  // ----- What acceptance guarantees -----

  ghost predicate Admitted(codecs: Codecs, job: PrintJob) {
    exists mb: nat :: ValidateForAcceptance(codecs, job, mb).Ok?
  }

  /** The entries a request adds to the queue. */
  function NewEntries(codecs: Codecs, request: Request, origin: Option<string>): (r: seq<QueuedJob>)
    requires HtmlLocalOrigin(codecs.parseUrl, JobsOf(request), origin).Ok?
    ensures |r| == |JobsOf(request)|
  {
    var allowed := HtmlLocalOrigin(codecs.parseUrl, JobsOf(request), origin).value;
    match request
    case Print(requestId, job) => [Enqueued(codecs.parseUrl, requestId, None, job, allowed)]
    case PrintBatch(requestId, batchId, jobs) => EnqueuedBatch(codecs.parseUrl, requestId, batchId, jobs, allowed)
  }

  /**
   A message either leaves the queue exactly as it was, or appends one entry per job, in
   order, with ids that are new to the process and distinct, every job admitted.
   */
  lemma HandleIsAllOrNothing(codecs: Codecs, limits: Limits, origin: Option<string>, request: Request, q: Contents)
    ensures var o := Handle(codecs, limits, origin, request, q);
            o.response.Refused? ==> o.queue == q && o.acceptedIds == []
    ensures var o := Handle(codecs, limits, origin, request, q);
            o.response.JobQueued? ==>
              && HtmlLocalOrigin(codecs.parseUrl, JobsOf(request), origin).Ok?
              && o.acceptedIds == IdSeq(JobsOf(request))
              && o.queue.pending == q.pending + NewEntries(codecs, request, origin)
              && o.queue.seenJobIds == q.seenJobIds + JobIds(JobsOf(request))
              && o.queue.seenBatchIds == q.seenBatchIds + (if request.PrintBatch? then {request.batchId} else {})
              && DistinctIds(JobsOf(request))
              && JobIds(JobsOf(request)) * q.seenJobIds == {}
              && (request.PrintBatch? ==> request.batchId !in q.seenBatchIds)
              && (forall job :: job in JobsOf(request) ==> Admitted(codecs, job))
  {
    var o := Handle(codecs, limits, origin, request, q);
    if o.response.JobQueued? {
      assert JobIds(JobsOf(request)) * q.seenJobIds == {};
      forall job | job in JobsOf(request) ensures Admitted(codecs, job) {
        assert ValidateForAcceptance(codecs, job, limits.maxFileSizeMb).Ok?;
      }
    }
  }

  /** A job that passed acceptance also passes the queue's own HTML check. */
  lemma AdmittedPassesQueueCheck(codecs: Codecs, job: PrintJob)
    requires Admitted(codecs, job)
    ensures ValidateHtmlSource(codecs.parseUrl, job).Ok?
  {
    var mb: nat :| ValidateForAcceptance(codecs, job, mb).Ok?;
  }

  /** So the queue never answers a validated message with InvalidMessage. */
  lemma QueueNeverRefusesSource(
    codecs: Codecs, limits: Limits, request: Request, q: Contents, allowed: Option<Origin>)
    requires FirstRefusal(codecs, JobsOf(request), limits.maxFileSizeMb).Ok?
    ensures Accept(codecs.parseUrl, q, request, allowed).0 != Err(InvalidMessage)
  {
    forall job | job in JobsOf(request) ensures ValidateHtmlSource(codecs.parseUrl, job).Ok? {
      assert ValidateForAcceptance(codecs, job, limits.maxFileSizeMb).Ok?;
      AdmittedPassesQueueCheck(codecs, job);
    }
    match request {
      case Print(_, job) =>
        assert job in JobsOf(request);
      case PrintBatch(_, _, jobs) =>
        assert forall i :: 0 <= i < |jobs| ==> jobs[i] in jobs;
    }
  }

  /** The parsed page address of a queued job. */
  function PageUrl(parse: UrlParser, job: PrintJob): Option<Url> {
    if job.fileUrl.None? then None else parse(job.fileUrl.value)
  }

  /**
   How a queued job relates to the connection that submitted it: an attached origin is the
   origin of the job's own URL and of the connection's loopback page, and an HTML job on
   127.0.0.1 always carries the origin of its page.
   */
  predicate OriginDiscipline(parse: UrlParser, origin: Option<string>, queued: QueuedJob) {
    && (queued.localOrigin.Some? ==>
          && PageUrl(parse, queued.job).Some?
          && OriginOf(PageUrl(parse, queued.job).value) == queued.localOrigin
          && LoopbackClient(parse, origin).Some?
          && OriginOf(LoopbackClient(parse, origin).value) == queued.localOrigin)
    && (queued.job.format.Html? && PageUrl(parse, queued.job).Some?
        && PageUrl(parse, queued.job).value.host == Some("127.0.0.1") ==>
          && queued.localOrigin.Some?
          && queued.localOrigin == OriginOf(PageUrl(parse, queued.job).value))
  }

  lemma NewEntriesAreDisciplined(codecs: Codecs, origin: Option<string>, request: Request, i: nat)
    requires HtmlLocalOrigin(codecs.parseUrl, JobsOf(request), origin).Ok?
    requires i < |JobsOf(request)|
    requires Admitted(codecs, JobsOf(request)[i])
    ensures OriginDiscipline(codecs.parseUrl, origin, NewEntries(codecs, request, origin)[i])
  {
    var parse := codecs.parseUrl;
    var jobs := JobsOf(request);
    var job := jobs[i];
    var allowed := HtmlLocalOrigin(parse, jobs, origin).value;
    var entry := NewEntries(codecs, request, origin)[i];
    assert entry.job == job && entry.localOrigin == LocalOriginFor(parse, job, allowed);
    if job.format.Html? && PageUrl(parse, job).Some? && PageUrl(parse, job).value.host == Some("127.0.0.1") {
      AdmittedPassesQueueCheck(codecs, job);
      assert LoopbackPage(parse, job) == PageUrl(parse, job);
      assert HasLoopbackPage(parse, jobs);
      assert SameOrigin(LoopbackPage(parse, jobs[i]).value, LoopbackClient(parse, origin).value);
    }
  }

  /** One page on a foreign loopback origin refuses the whole message and leaves the queue alone. */
  lemma MismatchRefusesWholeBatch(
    codecs: Codecs, limits: Limits, origin: Option<string>, request: Request, q: Contents, i: nat)
    requires i < |JobsOf(request)|
    requires LoopbackPage(codecs.parseUrl, JobsOf(request)[i]).Some?
    requires LoopbackClient(codecs.parseUrl, origin).None?
             || !SameOrigin(LoopbackPage(codecs.parseUrl, JobsOf(request)[i]).value,
                            LoopbackClient(codecs.parseUrl, origin).value)
    ensures var o := Handle(codecs, limits, origin, request, q);
            o.response.Refused? && o.queue == q && o.acceptedIds == []
  {
    assert HasLoopbackPage(codecs.parseUrl, JobsOf(request));
    assert HtmlLocalOrigin(codecs.parseUrl, JobsOf(request), origin).Err?;
  }

  /**
   Exactly which jobs carry an origin. The rule looks at the job's URL and never at its
   format, so a job of any format can carry one.
   */
  lemma AttachmentExact(codecs: Codecs, origin: Option<string>, request: Request, i: nat)
    requires HtmlLocalOrigin(codecs.parseUrl, JobsOf(request), origin).Ok?
    requires i < |JobsOf(request)|
    ensures var page := PageUrl(codecs.parseUrl, JobsOf(request)[i]);
            NewEntries(codecs, request, origin)[i].localOrigin.Some?
            <==> && HasLoopbackPage(codecs.parseUrl, JobsOf(request))
                 && page.Some? && IsHttp(page.value)
                 && SameOrigin(page.value, LoopbackClient(codecs.parseUrl, origin).value)
  {
    var parse := codecs.parseUrl;
    var jobs := JobsOf(request);
    if HasLoopbackPage(parse, jobs) {
      var k :| 0 <= k < |jobs| && LoopbackPage(parse, jobs[k]).Some?;
      assert SameOrigin(LoopbackPage(parse, jobs[k]).value, LoopbackClient(parse, origin).value);
    }
  }

  /** For instance, a PDF job in the same batch as a local HTML page, from the same page. */
  lemma PdfJobCanCarryOrigin()
    ensures exists codecs: Codecs, origin, request: Request, q ::
              var o := Handle(codecs, Limits(1, 2), origin, request, q);
              && o.response.JobQueued? && |o.queue.pending| == 2
              && o.queue.pending[1].job.format.Pdf? && o.queue.pending[1].localOrigin.Some?
  {
    hide Accept, FirstRefusal;
    var page := Url("http", Some("127.0.0.1"), Some(6688));
    var codecs := Codecs(_ => Some(page), _ => None);
    var html := PrintJob("a", Html, None, Some("u"), None, None, None, None, None);
    var pdf := PrintJob("b", Pdf, None, Some("u"), None, None, None, None, None);
    var request := PrintBatch("r", "b", [html, pdf]);
    BothAreValid(codecs, html, pdf);
    assert LoopbackPage(codecs.parseUrl, JobsOf(request)[0]).Some?;
    assert HasLoopbackPage(codecs.parseUrl, JobsOf(request));
    assert HtmlLocalOrigin(codecs.parseUrl, JobsOf(request), Some("u")) == Ok(OriginOf(page));
    BothEnter(codecs, html, pdf, OriginOf(page));
    var o := Handle(codecs, Limits(1, 2), Some("u"), request, EMPTY);
    assert o.response.JobQueued?;
  }

  lemma BothAreValid(codecs: Codecs, html: PrintJob, pdf: PrintJob)
    requires ValidateForAcceptance(codecs, html, 1).Ok? && ValidateForAcceptance(codecs, pdf, 1).Ok?
    ensures FirstRefusal(codecs, [html, pdf], 1).Ok?
  {
    hide ValidateForAcceptance;
  }

  lemma BothEnter(codecs: Codecs, html: PrintJob, pdf: PrintJob, allowed: Option<Origin>)
    requires html.jobId != pdf.jobId
    requires ValidateHtmlSource(codecs.parseUrl, html).Ok? && ValidateHtmlSource(codecs.parseUrl, pdf).Ok?
    ensures var (accepted, queue) := Accept(codecs.parseUrl, EMPTY, PrintBatch("r", "b", [html, pdf]), allowed);
            && accepted.Ok?
            && |queue.pending| == 2 && queue.pending[1].job == pdf
            && queue.pending[1].localOrigin == LocalOriginFor(codecs.parseUrl, pdf, allowed)
  {
    hide ValidateHtmlSource, LocalOriginFor;
    var jobs := [html, pdf];
    assert forall i :: 0 <= i < |jobs| ==> jobs[i] == html || jobs[i] == pdf;
  }

  // ----- When a message is accepted, and what is answered otherwise -----

  /** The two spellings of the local machine that count, and no other. */
  const LOOPBACK_HOSTS := {"127.0.0.1", "::1"}

  predicate IsLocal(url: Url) {
    url.host.Some? && url.host.value in LOOPBACK_HOSTS
  }

  /** The job is an HTML job for this page on the local machine. */
  predicate OpensLocalPage(parse: UrlParser, job: PrintJob, page: Url) {
    && job.format.Html? && job.fileUrl.Some? && parse(job.fileUrl.value) == Some(page)
    && IsHttp(page) && IsLocal(page)
  }

  /** The connection itself comes from a page on the local machine, of the same origin. */
  predicate ComesFrom(parse: UrlParser, origin: Option<string>, page: Url) {
    && origin.Some? && parse(origin.value).Some?
    && IsLocal(parse(origin.value).value)
    && SameOrigin(page, parse(origin.value).value)
  }

  /** A local page may be opened only by a connection that comes from it. */
  ghost predicate OriginRuleHolds(parse: UrlParser, jobs: seq<PrintJob>, origin: Option<string>) {
    forall i, page :: 0 <= i < |jobs| && OpensLocalPage(parse, jobs[i], page) ==> ComesFrom(parse, origin, page)
  }

  predicate FitsBatchLimit(limits: Limits, request: Request) {
    request.PrintBatch? ==> |request.jobs| <= limits.maxBatchJobs
  }

  predicate AllWellFormed(codecs: Codecs, jobs: seq<PrintJob>, maxFileSizeMb: nat) {
    forall i :: 0 <= i < |jobs| ==> IsWellFormed(codecs, jobs[i], maxFileSizeMb)
  }

  predicate IsNewBatch(request: Request, q: Contents) {
    request.PrintBatch? ==> request.batchId !in q.seenBatchIds
  }

  /** No job id occurs twice, and none has been seen before. */
  predicate AreNewIds(jobs: seq<PrintJob>, q: Contents) {
    && (forall i, j :: 0 <= i < j < |jobs| ==> jobs[i].jobId != jobs[j].jobId)
    && (forall i :: 0 <= i < |jobs| ==> jobs[i].jobId !in q.seenJobIds)
  }

  ghost predicate IsAcceptable(
    codecs: Codecs, limits: Limits, origin: Option<string>, request: Request, q: Contents)
  {
    && FitsBatchLimit(limits, request)
    && AllWellFormed(codecs, JobsOf(request), limits.maxFileSizeMb)
    && OriginRuleHolds(codecs.parseUrl, JobsOf(request), origin)
    && IsNewBatch(request, q)
    && AreNewIds(JobsOf(request), q)
  }

  /** The first job that is not well formed. */
  ghost predicate IsFirstMalformed(codecs: Codecs, jobs: seq<PrintJob>, maxFileSizeMb: nat, i: nat) {
    && i < |jobs| && !IsWellFormed(codecs, jobs[i], maxFileSizeMb)
    && (forall k :: 0 <= k < i ==> IsWellFormed(codecs, jobs[k], maxFileSizeMb))
  }

  /** Nothing is wrong with the job but the amount of its data, and perhaps its waiting time. */
  predicate IsOnlyTooLarge(codecs: Codecs, job: PrintJob, maxFileSizeMb: nat) {
    && DocumentSize(codecs, job) > MaxBytes(maxFileSizeMb)
    && HasProperFields(codecs, if job.format.RawHtml? then job.(waitMs := None) else job)
  }

  lemma {:induction false} FirstMalformedDecides(codecs: Codecs, jobs: seq<PrintJob>, maxFileSizeMb: nat)
    returns (i: nat)
    ensures AllWellFormed(codecs, jobs, maxFileSizeMb) <==> FirstRefusal(codecs, jobs, maxFileSizeMb).Ok?
    ensures !AllWellFormed(codecs, jobs, maxFileSizeMb) ==>
              && IsFirstMalformed(codecs, jobs, maxFileSizeMb, i)
              && FirstRefusal(codecs, jobs, maxFileSizeMb) == ValidateForAcceptance(codecs, jobs[i], maxFileSizeMb)
  {
    hide ValidateForAcceptance, IsWellFormed;
    i := 0;
    if jobs != [] {
      AcceptanceIsExact(codecs, jobs[0], maxFileSizeMb);
      if ValidateForAcceptance(codecs, jobs[0], maxFileSizeMb).Ok? {
        i := FirstMalformedDecides(codecs, jobs[1..], maxFileSizeMb);
        i := i + 1;
        assert forall k :: 0 < k < |jobs| ==> jobs[k] == jobs[1..][k - 1];
      }
    }
  }

  lemma LocalPageIsRead(parse: UrlParser, job: PrintJob, page: Url)
    requires OpensLocalPage(parse, job, page)
    ensures LoopbackPage(parse, job) == Some(page)
  {
  }

  lemma ReadPageIsLocal(parse: UrlParser, job: PrintJob)
    requires LoopbackPage(parse, job).Some?
    ensures OpensLocalPage(parse, job, LoopbackPage(parse, job).value)
  {
  }

  lemma ClientIsRead(parse: UrlParser, origin: Option<string>, page: Url)
    ensures ComesFrom(parse, origin, page)
            <==> LoopbackClient(parse, origin).Some? && SameOrigin(page, LoopbackClient(parse, origin).value)
  {
  }

  lemma OriginRuleExactly(parse: UrlParser, jobs: seq<PrintJob>, origin: Option<string>)
    ensures HtmlLocalOrigin(parse, jobs, origin).Ok? <==> OriginRuleHolds(parse, jobs, origin)
  {
    hide LoopbackPage, LoopbackClient, OpensLocalPage, SameOrigin, ComesFrom;
    if HtmlLocalOrigin(parse, jobs, origin).Ok? {
      forall i, page | 0 <= i < |jobs| && OpensLocalPage(parse, jobs[i], page)
        ensures ComesFrom(parse, origin, page)
      {
        LocalPageIsRead(parse, jobs[i], page);
        ClientIsRead(parse, origin, page);
      }
    } else {
      var i :| 0 <= i < |jobs| && LoopbackPage(parse, jobs[i]).Some?
               && (LoopbackClient(parse, origin).None?
                   || !SameOrigin(LoopbackPage(parse, jobs[i]).value, LoopbackClient(parse, origin).value));
      ReadPageIsLocal(parse, jobs[i]);
      ClientIsRead(parse, origin, LoopbackPage(parse, jobs[i]).value);
    }
  }

  lemma QueueAnswer(codecs: Codecs, request: Request, q: Contents, allowed: Option<Origin>)
    requires forall i :: 0 <= i < |JobsOf(request)| ==> ValidateHtmlSource(codecs.parseUrl, JobsOf(request)[i]).Ok?
    ensures Accept(codecs.parseUrl, q, request, allowed).0
            == if !IsNewBatch(request, q) then Err(DuplicateBatchId)
               else if !AreNewIds(JobsOf(request), q) then Err(DuplicateJobId)
               else Ok(Unit)
  {
    hide ValidateHtmlSource, LocalOriginFor;
    var jobs := JobsOf(request);
    if request.PrintBatch? {
      assert forall i :: 0 <= i < |jobs| ==> jobs[i] in jobs && jobs[i].jobId in JobIds(jobs);
      forall i | 0 <= i < |jobs| && jobs[i].jobId in q.seenJobIds ensures JobIds(jobs) * q.seenJobIds != {} {
        assert jobs[i].jobId in JobIds(jobs) * q.seenJobIds;
      }
      if id :| id in JobIds(jobs) * q.seenJobIds {
        var job :| job in jobs && job.jobId == id;
        var i :| 0 <= i < |jobs| && jobs[i] == job;
        assert jobs[i].jobId in q.seenJobIds;
      } else {
        assert JobIds(jobs) * q.seenJobIds == {};
      }
    } else {
      assert jobs[0] == request.job;
    }
  }

  /**
   A message is accepted if and only if it keeps the batch limit, all its jobs are well formed, the
   origin rule holds, and the batch id and all job ids are new and distinct. What is found wrong
   first, in this order, decides the code of a refusal. The reply carries the request's id, and an
   acceptance the id of the job or batch.
   */
  lemma AnsweredExactly(codecs: Codecs, limits: Limits, origin: Option<string>, request: Request, q: Contents)
    returns (i: nat)
    ensures var o := Handle(codecs, limits, origin, request, q);
            && (o.response.JobQueued? <==> IsAcceptable(codecs, limits, origin, request, q))
            && o.acceptedIds == (if o.response.JobQueued? then IdSeq(JobsOf(request)) else [])
            && o.response.requestId == request.requestId
    ensures var response := Handle(codecs, limits, origin, request, q).response;
            var jobs := JobsOf(request);
            if !FitsBatchLimit(limits, request) then response == Refused(request.requestId, BatchTooLargeCode)
            else if !AllWellFormed(codecs, jobs, limits.maxFileSizeMb) then
              && IsFirstMalformed(codecs, jobs, limits.maxFileSizeMb, i)
              && response == Refused(request.requestId,
                                     if IsOnlyTooLarge(codecs, jobs[i], limits.maxFileSizeMb)
                                     then FileTooLargeCode else InvalidMessageCode)
            else if !OriginRuleHolds(codecs.parseUrl, jobs, origin) then
              response == Refused(request.requestId, InvalidMessageCode)
            else if !IsNewBatch(request, q) then response == Refused(request.requestId, BatchDuplicated)
            else if !AreNewIds(jobs, q) then response == Refused(request.requestId, JobDuplicated)
            else response == JobQueued(request.requestId,
                                       if request.Print? then request.job.jobId else request.batchId)
  {
    hide ValidateForAcceptance, IsWellFormed, OriginRuleHolds, HtmlLocalOrigin, Accept, AreNewIds, IsNewBatch;
    hide ValidateHtmlSource, HasProperFields, DocumentSize, MaxBytes;
    var jobs := JobsOf(request);
    i := FirstMalformedDecides(codecs, jobs, limits.maxFileSizeMb);
    if !AllWellFormed(codecs, jobs, limits.maxFileSizeMb) {
      TooLargeExactly(codecs, jobs[i], limits.maxFileSizeMb);
    } else {
      OriginRuleExactly(codecs.parseUrl, jobs, origin);
      forall k | 0 <= k < |jobs| ensures ValidateHtmlSource(codecs.parseUrl, jobs[k]).Ok? {
        AcceptanceIsExact(codecs, jobs[k], limits.maxFileSizeMb);
        AdmittedPassesQueueCheck(codecs, jobs[k]);
      }
      if OriginRuleHolds(codecs.parseUrl, jobs, origin) {
        QueueAnswer(codecs, request, q, HtmlLocalOrigin(codecs.parseUrl, jobs, origin).value);
      }
    }
  }
}
