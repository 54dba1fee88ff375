/**
 How the queue worker processes one job, and the status events it emits.

 Downloads, conversions, rendering and the print backend are outside the model: their
 results are the fields of `World`, and every statement holds for all of them.
 */
module Worker {
  import opened Common
  import opened Protocol
  import opened Queue
  import opened Server

  datatype JobStatus = Queued | Downloading | Printing | Submitted | Completed | Failed | Unknown | Cancelled

  /** The statuses that close a row in the task history. */
  predicate IsTerminal(status: JobStatus) {
    status.Submitted? || status.Completed? || status.Failed? || status.Unknown? || status.Cancelled?
  }

  datatype Event = Event(requestId: string, batchId: Option<string>, jobId: string, status: JobStatus, message: string)

  datatype Config = Config(
    defaultPrinter: Option<string>,
    defaultPaper: Option<Paper>,
    defaultCopies: nat,
    maxFileSizeMb: nat,
    maxCopies: nat)

  datatype OfficeFormat = OfficeDocx | OfficeXlsx | OfficePptx

  datatype DocumentFormat = PdfDocument | PngDocument | JpegDocument

  datatype Submission = Submission(trackingSupported: bool)

  datatype Tracking =
    | TrackedCompleted(message: string)
    | TrackedFailed(message: string)
    | TrackedUnknown(message: string)

  /** Everything the outside world answers while one job is processed. */
  datatype World = World(
    download: Result<Unit, string>,
    officeKind: Result<Option<OfficeFormat>, string>,
    officeConverter: Result<string, string>,
    documentKind: Result<Option<DocumentFormat>, string>,
    pdfCopy: Result<Unit, string>,
    imageToPdf: Result<Unit, string>,
    render: Result<string, string>,
    backend: Result<Submission, string>,
    tracking: Tracking)

  datatype ProcessError =
    | PrinterNotConfigured
    | PaperNotConfigured
    | CopiesOutOfRange
    | UnsupportedFormat
    | InvalidJob(reason: string)
    | DataTooLarge
    | FormatMismatch(expected: string, actual: string)
    | External(reason: string)

  type Ending = Result<Unit, ProcessError>

  const DEFAULT_HTML_WAIT_MS := 1_000

  datatype PrintOptions = PrintOptions(printer: string, paper: Paper, copies: nat)

  datatype HtmlDocument = PageAt(url: Url) | Inline(html: string)

  /** A request to the outside world, with everything it is told about the job. */
  datatype Call =
    | Download(fileUrl: string)
    | Render(document: HtmlDocument, allowed: Option<Origin>, paper: Paper, waitMs: nat)
    | PrintPdf(options: PrintOptions)
    | PrintRaw(printer: string, data: seq<bv8>)

  predicate IsSubmission(call: Call) {
    call.PrintPdf? || call.PrintRaw?
  }

  function ErrorText(error: ProcessError): string {
    match error
    case PrinterNotConfigured => "printer not configured"
    case PaperNotConfigured => "paper not configured"
    case CopiesOutOfRange => "copies out of range"
    case UnsupportedFormat => "unsupported document format"
    case InvalidJob(reason) => reason
    case DataTooLarge => "file too large"
    case FormatMismatch(expected, actual) => "format mismatch: expected " + expected + ", got " + actual
    case External(reason) => reason
  }

  function ResolvePrinterName(job: PrintJob, config: Config): Result<string, ProcessError> {
    if job.printerName.Some? then Ok(job.printerName.value)
    else if config.defaultPrinter.Some? then Ok(config.defaultPrinter.value)
    else Err(PrinterNotConfigured)
  }

  /** Printer, paper and copies of a file or HTML job. */
  function ResolvePrintOptions(job: PrintJob, config: Config): Result<PrintOptions, ProcessError> {
    var printer := ResolvePrinterName(job, config);
    var paper := if job.paper.Some? then job.paper else config.defaultPaper;
    var copies := if job.copies.Some? then job.copies.value else 1;
    if printer.Err? then Err(printer.error)
    else if paper.None? then Err(PaperNotConfigured)
    else if copies == 0 || copies > config.maxCopies then Err(CopiesOutOfRange)
    else Ok(PrintOptions(printer.value, paper.value, copies))
  }

  function OfficeFormatOf(format: Format): Option<OfficeFormat> {
    match format
    case Docx => Some(OfficeDocx)
    case Xlsx => Some(OfficeXlsx)
    case Pptx => Some(OfficePptx)
    case _ => None
  }

  predicate FormatMatches(expected: Format, actual: DocumentFormat) {
    match (expected, actual)
    case (Pdf, PdfDocument) => true
    case (Image, PngDocument) => true
    case (Image, JpegDocument) => true
    case (Png, PngDocument) => true
    case (Jpg, JpegDocument) => true
    case (Jpeg, JpegDocument) => true
    case _ => false
  }

  function FormatName(format: Format): string {
    match format
    case Pdf => "pdf"
    case Image => "image"
    case Png => "png"
    case Jpg => "jpg"
    case Jpeg => "jpeg"
    case Docx => "docx"
    case Xlsx => "xlsx"
    case Pptx => "pptx"
    case Raw => "raw"
    case Html => "html"
    case RawHtml => "raw-html"
  }

  function OfficeName(format: Option<OfficeFormat>): string {
    match format
    case Some(OfficeDocx) => "docx"
    case Some(OfficeXlsx) => "xlsx"
    case Some(OfficePptx) => "pptx"
    case None => "unsupported"
  }

  function DocumentName(format: DocumentFormat): string {
    match format
    case PdfDocument => "pdf"
    case PngDocument => "png"
    case JpegDocument => "jpeg"
  }

  /** Turns the download into a printable PDF; names the Office converter when one was used. */
  function PreparePdf(format: Format, world: World): Result<Option<string>, ProcessError> {
    var office := OfficeFormatOf(format);
    if office.Some? then
      if world.officeKind.Err? then Err(External(world.officeKind.error))
      else if world.officeKind.value != office then
        Err(FormatMismatch(OfficeName(office), OfficeName(world.officeKind.value)))
      else if world.officeConverter.Err? then Err(External(world.officeConverter.error))
      else Ok(Some(world.officeConverter.value))
    else if world.documentKind.Err? then Err(External(world.documentKind.error))
    else if world.documentKind.value.None? then Err(UnsupportedFormat)
    else if !FormatMatches(format, world.documentKind.value.value) then
      Err(FormatMismatch(FormatName(format), DocumentName(world.documentKind.value.value)))
    else
      var conversion := if world.documentKind.value.value.PdfDocument? then world.pdfCopy else world.imageToPdf;
      if conversion.Err? then Err(External(conversion.error)) else Ok(None)
  }

  /** The HTML document that a job asks to render. */
  function HtmlSource(codecs: Codecs, job: PrintJob): Result<HtmlDocument, ProcessError> {
    match job.format
    case Html =>
      if job.fileUrl.None? then Err(InvalidJob("html job requires file_url"))
      else
        (match ValidateHtmlFileUrl(codecs.parseUrl, job.fileUrl.value)
         case Err(_) => Err(InvalidJob("invalid html file_url"))
         case Ok(url) => Ok(PageAt(url)))
    case RawHtml => if job.html.None? then Err(InvalidJob("raw-html job requires html")) else Ok(Inline(job.html.value))
    case _ => Err(UnsupportedFormat)
  }

  /** The decoded payload of a raw job, checked against the size limit in force now. */
  function RawData(codecs: Codecs, job: PrintJob, config: Config): Result<seq<bv8>, ProcessError> {
    if job.dataBase64.None? then Err(InvalidJob("raw job requires data_base64"))
    else
      match codecs.decodeBase64(job.dataBase64.value)
      case None => Err(InvalidJob("invalid raw data_base64"))
      case Some(bytes) => if |bytes| > MaxBytes(config.maxFileSizeMb) then Err(DataTooLarge) else Ok(bytes)
  }

  function TrackingStatus(tracking: Tracking): JobStatus {
    match tracking
    case TrackedCompleted(_) => Completed
    case TrackedFailed(_) => Failed
    case TrackedUnknown(_) => Unknown
  }

  // ----- The whole of one job as a value -----

  datatype Note = Note(status: JobStatus, message: string)

  /** What was emitted, what the outside world was asked, and how processing ended. */
  datatype Course = Course(notes: seq<Note>, calls: seq<Call>, end: Ending)

  function Submissions(calls: seq<Call>): nat {
    if calls == [] then 0
    else Submissions(calls[..|calls| - 1]) + (if IsSubmission(calls[|calls| - 1]) then 1 else 0)
  }

  function Fail(notes: seq<Note>, calls: seq<Call>, error: ProcessError): Course {
    Course(notes, calls, Err(error))
  }

  /** One call of the backend, announced by `first` and followed by tracking when supported. */
  function SubmitCourse(first: Note, call: Call, world: World): Course {
    if world.backend.Err? then Course([first], [call], Err(External(world.backend.error)))
    else
      var submitted := [first, Note(Submitted, "submitted to system print queue")];
      if !world.backend.value.trackingSupported then Course(submitted, [call], Ok(Unit))
      else Course(submitted + [Note(TrackingStatus(world.tracking), world.tracking.message)], [call], Ok(Unit))
  }

  function Before(notes: seq<Note>, calls: seq<Call>, course: Course): Course {
    course.(notes := notes + course.notes, calls := calls + course.calls)
  }

  function RawCourse(codecs: Codecs, job: PrintJob, printer: string, config: Config, world: World): Course {
    var data := RawData(codecs, job, config);
    if data.Err? then Fail([], [], data.error)
    else SubmitCourse(Note(Printing, "printing raw"), PrintRaw(printer, data.value), world)
  }

  function RenderCall(queued: QueuedJob, document: HtmlDocument, options: PrintOptions): Call {
    Render(document, queued.localOrigin, options.paper,
           Coalesce(queued.job.waitMs, Some(DEFAULT_HTML_WAIT_MS)).value)
  }

  function HtmlCourse(codecs: Codecs, queued: QueuedJob, options: PrintOptions, world: World): Course {
    var source := HtmlSource(codecs, queued.job);
    if source.Err? then Fail([], [], source.error)
    else
      var render := RenderCall(queued, source.value, options);
      if world.render.Err? then Fail([], [render], External(world.render.error))
      else
        Before([Note(Printing, "rendering html with " + world.render.value)], [render],
               SubmitCourse(Note(Printing, "printing"), PrintPdf(options), world))
  }

  function FileCourse(job: PrintJob, options: PrintOptions, world: World): Course {
    var prepared := PreparePdf(job.format, world);
    if prepared.Err? then Fail([], [], prepared.error)
    else
      var conversion :=
        if prepared.value.Some? then [Note(Printing, "converted office with " + prepared.value.value)] else [];
      Before(conversion, [], SubmitCourse(Note(Printing, "printing"), PrintPdf(options), world))
  }

  function InnerCourse(codecs: Codecs, queued: QueuedJob, config: Config, world: World): Course {
    var job := queued.job;
    match job.format
    case Html =>
      var options := ResolvePrintOptions(job, config);
      if options.Err? then Fail([], [], options.error) else HtmlCourse(codecs, queued, options.value, world)
    case RawHtml =>
      var options := ResolvePrintOptions(job, config);
      if options.Err? then Fail([], [], options.error) else HtmlCourse(codecs, queued, options.value, world)
    case Raw =>
      var printer := ResolvePrinterName(job, config);
      if printer.Err? then Fail([], [], printer.error) else RawCourse(codecs, job, printer.value, config, world)
    case _ =>
      var downloading := [Note(Downloading, "downloading")];
      if job.fileUrl.None? then Fail(downloading, [], InvalidJob("file job requires file_url"))
      else
        var options := ResolvePrintOptions(job, config);
        var download := [Download(job.fileUrl.value)];
        if options.Err? then Fail(downloading, [], options.error)
        else if world.download.Err? then Fail(downloading, download, External(world.download.error))
        else Before(downloading, download, FileCourse(job, options.value, world))
  }

  /** The opening Queued and, when processing ended in an error, the closing Failed. */
  function Framed(inner: Course): Course {
    var failure := if inner.end.Err? then [Note(Failed, ErrorText(inner.end.error))] else [];
    inner.(notes := [Note(Queued, "queued")] + inner.notes + failure)
  }

  /** The complete course of a job, from `Queued` to its last status. */
  function JobCourse(codecs: Codecs, queued: QueuedJob, config: Config, world: World): Course {
    Framed(InnerCourse(codecs, queued, config, world))
  }

  function ToEvent(queued: QueuedJob, note: Note): Event {
    Event(queued.requestId, queued.batchId, queued.job.jobId, note.status, note.message)
  }

  function ToEvents(queued: QueuedJob, notes: seq<Note>): (events: seq<Event>)
    ensures |events| == |notes|
    ensures forall i :: 0 <= i < |notes| ==> events[i] == ToEvent(queued, notes[i])
  {
    seq(|notes|, i requires 0 <= i < |notes| => ToEvent(queued, notes[i]))
  }

  lemma FramedEvents(queued: QueuedJob, before: seq<Event>, inner: Course, events: seq<Event>)
    requires events == before + ToEvents(queued, [Note(Queued, "queued")]) + ToEvents(queued, inner.notes)
                       + (if inner.end.Err? then ToEvents(queued, [Note(Failed, ErrorText(inner.end.error))]) else [])
    ensures events == before + ToEvents(queued, Framed(inner).notes)
  {
  }

  /** The status events of a job, in the order the worker broadcasts them. */
  function Trace(codecs: Codecs, queued: QueuedJob, config: Config, world: World): seq<Event> {
    ToEvents(queued, JobCourse(codecs, queued, config, world).notes)
  }

  function Statuses(events: seq<Event>): (r: seq<JobStatus>)
    ensures |r| == |events|
    ensures forall i :: 0 <= i < |events| ==> r[i] == events[i].status
  {
    seq(|events|, i requires 0 <= i < |events| => events[i].status)
  }

  // ----- The worker's methods, which emit as they go -----

  /** The status stream and the outside world as the worker sees them. */
  class Desk {
    var events: seq<Event>
    var calls: seq<Call>

    constructor ()
      ensures events == [] && calls == []
    {
      events, calls := [], [];
    }

    method PushLog(queued: QueuedJob, status: JobStatus, message: string)
      modifies this`events
      ensures events == old(events) + ToEvents(queued, [Note(status, message)])
    {
      events := events + [Event(queued.requestId, queued.batchId, queued.job.jobId, status, message)];
    }

    /** Asks the outside world for something; the answers are the fields of `World`. */
    method Ask(call: Call)
      modifies this`calls
      ensures calls == old(calls) + [call]
    {
      calls := calls + [call];
    }

    /** `this` has followed `course` since the given earlier events and calls. */
    ghost predicate Followed(queued: QueuedJob, events0: seq<Event>, calls0: seq<Call>, course: Course)
      reads this
    {
      events == events0 + ToEvents(queued, course.notes) && calls == calls0 + course.calls
    }

    method SubmitAndTrack(queued: QueuedJob, message: string, call: Call, world: World) returns (end: Ending)
      modifies this
      ensures Followed(queued, old(events), old(calls), SubmitCourse(Note(Printing, message), call, world))
      ensures end == SubmitCourse(Note(Printing, message), call, world).end
    {
      PushLog(queued, Printing, message);
      Ask(call);
      if world.backend.Err? {
        return Err(External(world.backend.error));
      }
      PushLog(queued, Submitted, "submitted to system print queue");
      if !world.backend.value.trackingSupported {
        return Ok(Unit);
      }
      PushLog(queued, TrackingStatus(world.tracking), world.tracking.message);
      return Ok(Unit);
    }

    method PrintRawJob(codecs: Codecs, queued: QueuedJob, printer: string, config: Config, world: World)
      returns (end: Ending)
      modifies this
      ensures Followed(queued, old(events), old(calls), RawCourse(codecs, queued.job, printer, config, world))
      ensures end == RawCourse(codecs, queued.job, printer, config, world).end
    {
      var data := RawData(codecs, queued.job, config);
      if data.Err? {
        return Err(data.error);
      }
      end := SubmitAndTrack(queued, "printing raw", PrintRaw(printer, data.value), world);
    }

    method PrintHtmlJob(codecs: Codecs, queued: QueuedJob, options: PrintOptions, world: World) returns (end: Ending)
      modifies this
      ensures Followed(queued, old(events), old(calls), HtmlCourse(codecs, queued, options, world))
      ensures end == HtmlCourse(codecs, queued, options, world).end
    {
      var source := HtmlSource(codecs, queued.job);
      if source.Err? {
        return Err(source.error);
      }
      Ask(RenderCall(queued, source.value, options));
      if world.render.Err? {
        return Err(External(world.render.error));
      }
      PushLog(queued, Printing, "rendering html with " + world.render.value);
      end := SubmitAndTrack(queued, "printing", PrintPdf(options), world);
    }

    method PrintDownloadedFile(queued: QueuedJob, options: PrintOptions, world: World) returns (end: Ending)
      modifies this
      ensures Followed(queued, old(events), old(calls), FileCourse(queued.job, options, world))
      ensures end == FileCourse(queued.job, options, world).end
    {
      var prepared := PreparePdf(queued.job.format, world);
      if prepared.Err? {
        return Err(prepared.error);
      }
      if prepared.value.Some? {
        PushLog(queued, Printing, "converted office with " + prepared.value.value);
      }
      end := SubmitAndTrack(queued, "printing", PrintPdf(options), world);
    }

    method ProcessJobInner(codecs: Codecs, queued: QueuedJob, config: Config, world: World)
      returns (end: Ending, ghost course: Course)
      modifies this
      ensures course == InnerCourse(codecs, queued, config, world)
      ensures Followed(queued, old(events), old(calls), course) && end == course.end
    {
      hide SubmitCourse, PreparePdf, HtmlSource, RawData;
      course := InnerCourse(codecs, queued, config, world);
      if queued.job.format.Html? || queued.job.format.RawHtml? {
        var options := ResolvePrintOptions(queued.job, config);
        if options.Err? {
          end := Err(options.error);
          return;
        }
        end := PrintHtmlJob(codecs, queued, options.value, world);
        return;
      }
      if queued.job.format.Raw? {
        var printer := ResolvePrinterName(queued.job, config);
        if printer.Err? {
          end := Err(printer.error);
          return;
        }
        end := PrintRawJob(codecs, queued, printer.value, config, world);
        return;
      }
      PushLog(queued, Downloading, "downloading");
      if queued.job.fileUrl.None? {
        end := Err(InvalidJob("file job requires file_url"));
        return;
      }
      var options := ResolvePrintOptions(queued.job, config);
      if options.Err? {
        end := Err(options.error);
        return;
      }
      Ask(Download(queued.job.fileUrl.value));
      if world.download.Err? {
        end := Err(External(world.download.error));
        return;
      }
      end := PrintDownloadedFile(queued, options.value, world);
    }

    method ProcessJob(codecs: Codecs, queued: QueuedJob, config: Config, world: World)
      modifies this
      ensures events == old(events) + Trace(codecs, queued, config, world)
      ensures calls == old(calls) + JobCourse(codecs, queued, config, world).calls
    {
      hide InnerCourse;
      PushLog(queued, Queued, "queued");
      ghost var inner: Course;
      var end: Ending;
      end, inner := ProcessJobInner(codecs, queued, config, world);
      if end.Err? {
        PushLog(queued, Failed, ErrorText(end.error));
      }
      FramedEvents(queued, old(events), inner, events);
    }
  }

  // ----- The status grammar -----

  /** The places between statuses in the life of one job. */
  datatype Place = Fresh | Waiting | Fetching | Announced | AnnouncedTwice | HandedOver | Closed | Stuck

  function After(place: Place, status: JobStatus): Place {
    match (place, status)
    case (Fresh, Queued) => Waiting
    case (Waiting, Downloading) => Fetching
    case (Waiting, Failed) => Closed
    case (Waiting, Printing) => Announced
    case (Fetching, Failed) => Closed
    case (Fetching, Printing) => Announced
    case (Announced, Printing) => AnnouncedTwice
    case (Announced, Failed) => Closed
    case (Announced, Submitted) => HandedOver
    case (AnnouncedTwice, Failed) => Closed
    case (AnnouncedTwice, Submitted) => HandedOver
    case (HandedOver, Completed) => Closed
    case (HandedOver, Failed) => Closed
    case (HandedOver, Unknown) => Closed
    case _ => Stuck
  }

  function Reached(place: Place, statuses: seq<JobStatus>): Place
    decreases |statuses|
  {
    if statuses == [] then place else Reached(After(place, statuses[0]), statuses[1..])
  }

  /**
   A complete status history: Queued, perhaps Downloading, then Failed, or one or two
   Printing followed by Failed or by Submitted and at most one of Completed, Failed, Unknown.
   */
  predicate Grammatical(statuses: seq<JobStatus>) {
    var place := Reached(Fresh, statuses);
    place.HandedOver? || place.Closed?
  }

  function Count(statuses: seq<JobStatus>, status: JobStatus): nat {
    if statuses == [] then 0 else (if statuses[0] == status then 1 else 0) + Count(statuses[1..], status)
  }

  lemma {:induction false} ReachedConcat(place: Place, a: seq<JobStatus>, b: seq<JobStatus>)
    ensures Reached(place, a + b) == Reached(Reached(place, a), b)
    decreases |a|
  {
    if a == [] {
      assert a + b == b;
    } else {
      assert (a + b)[1..] == a[1..] + b;
      ReachedConcat(After(place, a[0]), a[1..], b);
    }
  }

  /** Nothing leads out of `Stuck`, and only `Stuck` lies behind `Closed`. */
  lemma {:induction false} DeadEnds(place: Place, statuses: seq<JobStatus>)
    requires place.Stuck? || (place.Closed? && statuses != [])
    ensures Reached(place, statuses) == Stuck
    decreases |statuses|
  {
    if statuses != [] {
      DeadEnds(Stuck, statuses[1..]);
    }
  }

  /** How many failures and hand-overs a grammatical continuation can still contain. */
  lemma {:induction false} ContinuationCounts(place: Place, statuses: seq<JobStatus>)
    requires var end := Reached(place, statuses); end.HandedOver? || end.Closed?
    ensures Count(statuses, Failed) <= 1
    ensures Count(statuses, Submitted) <= 1
    ensures statuses != [] ==> IsTerminal(statuses[|statuses| - 1])
    ensures place.HandedOver? ==> |statuses| <= 1 && Count(statuses, Submitted) == 0
    ensures place.Closed? ==> statuses == []
    ensures |statuses| <= (match place case Fresh => 6 case Waiting => 5 case Fetching => 4
                                       case Announced => 3 case AnnouncedTwice => 2 case HandedOver => 1 case _ => 0)
    decreases |statuses|
  {
    if statuses != [] {
      var next := After(place, statuses[0]);
      if place.Stuck? || place.Closed? {
        DeadEnds(place, statuses);
      } else if next.Stuck? {
        DeadEnds(Stuck, statuses[1..]);
      } else {
        ContinuationCounts(next, statuses[1..]);
        if |statuses| > 1 {
          assert statuses[1..][|statuses| - 2] == statuses[|statuses| - 1];
        }
      }
    }
  }

  /** Every grammatical history starts with Queued, fails at most once and ends in a terminal status. */
  lemma GrammarConsequences(statuses: seq<JobStatus>)
    requires Grammatical(statuses)
    ensures 2 <= |statuses| <= 6
    ensures statuses[0] == Queued
    ensures IsTerminal(statuses[|statuses| - 1])
    ensures Count(statuses, Failed) <= 1
    ensures Count(statuses, Submitted) <= 1
  {
    ContinuationCounts(Fresh, statuses);
    if statuses[0] != Queued {
      DeadEnds(Stuck, statuses[1..]);
    }
  }

  function NoteStatuses(notes: seq<Note>): (r: seq<JobStatus>)
    ensures |r| == |notes|
    ensures forall i :: 0 <= i < |notes| ==> r[i] == notes[i].status
  {
    seq(|notes|, i requires 0 <= i < |notes| => notes[i].status)
  }

  /** Where a course ends up once its failure, if any, has been announced. */
  function EndPlace(place: Place, course: Course): Place {
    Reached(place, NoteStatuses(course.notes) + (if course.end.Err? then [Failed] else []))
  }

  lemma SubmitEnds(place: Place, first: Note, call: Call, world: World)
    requires first.status.Printing? && (place.Waiting? || place.Fetching? || place.Announced?)
    ensures var end := EndPlace(place, SubmitCourse(first, call, world)); end.HandedOver? || end.Closed?
  {
    var course := SubmitCourse(first, call, world);
    var failure := if course.end.Err? then [Failed] else [];
    var statuses := NoteStatuses(course.notes) + failure;
    if world.backend.Err? {
      assert statuses == [Printing, Failed];
      assert Reached(place, [Printing, Failed]) == Reached(After(place, Printing), [Failed]);
    } else if !world.backend.value.trackingSupported {
      assert statuses == [Printing, Submitted];
      assert Reached(place, [Printing, Submitted]) == Reached(After(place, Printing), [Submitted]);
    } else {
      var tracked := TrackingStatus(world.tracking);
      assert statuses == [Printing, Submitted, tracked];
      assert statuses[1..] == [Submitted, tracked] && statuses[1..][1..] == [tracked];
      assert [tracked][1..] == [];
      assert Reached(HandedOver, [tracked]) == Reached(After(HandedOver, tracked), []);
      assert Reached(After(place, Printing), [Submitted, tracked]) == Reached(HandedOver, [tracked]);
    }
  }

  lemma BeforeEnds(place: Place, notes: seq<Note>, calls: seq<Call>, course: Course)
    ensures EndPlace(place, Before(notes, calls, course)) == EndPlace(Reached(place, NoteStatuses(notes)), course)
  {
    var failure := if course.end.Err? then [Failed] else [];
    assert NoteStatuses(notes + course.notes) + failure == NoteStatuses(notes) + (NoteStatuses(course.notes) + failure);
    ReachedConcat(place, NoteStatuses(notes), NoteStatuses(course.notes) + failure);
  }

  lemma FailEnds(place: Place, course: Course)
    requires course.end.Err? && (place.Waiting? || place.Fetching?)
    requires course.notes == [] || (place.Waiting? && NoteStatuses(course.notes) == [Downloading])
    ensures EndPlace(place, course).Closed?
  {
    ReachedConcat(place, NoteStatuses(course.notes), [Failed]);
    assert Reached(place, [Downloading]) == Reached(After(place, Downloading), []);
    assert course.notes == [] ==> NoteStatuses(course.notes) == [];
    var fetched := Reached(place, NoteStatuses(course.notes));
    assert Reached(fetched, [Failed]) == Reached(After(fetched, Failed), []);
  }

  lemma HtmlEnds(codecs: Codecs, queued: QueuedJob, options: PrintOptions, world: World)
    ensures var end := EndPlace(Waiting, HtmlCourse(codecs, queued, options, world)); end.HandedOver? || end.Closed?
  {
    hide EndPlace, SubmitCourse, HtmlSource;
    var course := HtmlCourse(codecs, queued, options, world);
    if HtmlSource(codecs, queued.job).Err? || world.render.Err? {
      FailEnds(Waiting, course);
    } else {
      var first := [Note(Printing, "rendering html with " + world.render.value)];
      var submit := SubmitCourse(Note(Printing, "printing"), PrintPdf(options), world);
      BeforeEnds(Waiting, first, course.calls[..1], submit);
      assert NoteStatuses(first) == [Printing];
      assert Reached(Waiting, [Printing]) == Reached(After(Waiting, Printing), []);
      SubmitEnds(Announced, Note(Printing, "printing"), PrintPdf(options), world);
    }
  }

  lemma FileEnds(job: PrintJob, options: PrintOptions, world: World)
    ensures var end := EndPlace(Fetching, FileCourse(job, options, world)); end.HandedOver? || end.Closed?
  {
    hide EndPlace, SubmitCourse, PreparePdf;
    var prepared := PreparePdf(job.format, world);
    if prepared.Err? {
      FailEnds(Fetching, FileCourse(job, options, world));
    } else {
      var conversion :=
        if prepared.value.Some? then [Note(Printing, "converted office with " + prepared.value.value)] else [];
      BeforeEnds(Fetching, conversion, [], SubmitCourse(Note(Printing, "printing"), PrintPdf(options), world));
      assert NoteStatuses(conversion) == if prepared.value.Some? then [Printing] else [];
      assert Reached(Fetching, [Printing]) == Reached(After(Fetching, Printing), []);
      SubmitEnds(Reached(Fetching, NoteStatuses(conversion)), Note(Printing, "printing"), PrintPdf(options), world);
    }
  }

  lemma InnerEnds(codecs: Codecs, queued: QueuedJob, config: Config, world: World)
    ensures var end := EndPlace(Waiting, InnerCourse(codecs, queued, config, world)); end.HandedOver? || end.Closed?
  {
    hide EndPlace, SubmitCourse, HtmlCourse, FileCourse, RawData;
    var job := queued.job;
    var course := InnerCourse(codecs, queued, config, world);
    var options := ResolvePrintOptions(job, config);
    if IsFileFormat(job.format) {
      var downloading := [Note(Downloading, "downloading")];
      assert NoteStatuses(downloading) == [Downloading];
      if job.fileUrl.None? || options.Err? || world.download.Err? {
        FailEnds(Waiting, course);
      } else {
        BeforeEnds(Waiting, downloading, [Download(job.fileUrl.value)], FileCourse(job, options.value, world));
        assert Reached(Waiting, [Downloading]) == Reached(After(Waiting, Downloading), []);
        FileEnds(job, options.value, world);
      }
    } else if job.format.Raw? {
      var printer, data := ResolvePrinterName(job, config), RawData(codecs, job, config);
      if printer.Err? || data.Err? {
        FailEnds(Waiting, course);
      } else {
        SubmitEnds(Waiting, Note(Printing, "printing raw"), PrintRaw(printer.value, data.value), world);
      }
    } else if options.Err? {
      FailEnds(Waiting, course);
    } else {
      HtmlEnds(codecs, queued, options.value, world);
    }
  }

  /** For every job, configuration and outcome of the outside world, the emitted history is grammatical. */
  lemma TraceIsGrammatical(codecs: Codecs, queued: QueuedJob, config: Config, world: World)
    ensures Grammatical(Statuses(Trace(codecs, queued, config, world)))
  {
    hide InnerCourse;
    var inner := InnerCourse(codecs, queued, config, world);
    var failure := if inner.end.Err? then [Failed] else [];
    var statuses := Statuses(Trace(codecs, queued, config, world));
    assert statuses == [Queued] + (NoteStatuses(inner.notes) + failure);
    ReachedConcat(Fresh, [Queued], NoteStatuses(inner.notes) + failure);
    assert Reached(Fresh, [Queued]) == Reached(After(Fresh, Queued), []);
    InnerEnds(codecs, queued, config, world);
  }

  // ----- Announcing what was submitted -----

  lemma {:induction false} SubmissionsConcat(a: seq<Call>, b: seq<Call>)
    ensures Submissions(a + b) == Submissions(a) + Submissions(b)
    decreases |b|
  {
    if b == [] {
      assert a + b == a;
    } else {
      assert (a + b)[..|a + b| - 1] == a + b[..|b| - 1];
      SubmissionsConcat(a, b[..|b| - 1]);
    }
  }

  lemma OneCall(call: Call)
    ensures Submissions([call]) == if IsSubmission(call) then 1 else 0
  {
    assert Submissions([call][..0]) == 0;
  }

  /** The backend calls of a course, and whether they are announced. */
  ghost predicate CallsAreAnnounced(course: Course, world: World) {
    && Submissions(course.calls) <= 1
    && ((exists i :: 0 <= i < |course.notes| && course.notes[i].status.Submitted?)
        <==> Submissions(course.calls) == 1 && world.backend.Ok?)
    && (course.end.Ok? <==> Submissions(course.calls) == 1 && world.backend.Ok?)
  }

  lemma SubmitIsAnnounced(first: Note, call: Call, world: World)
    requires first.status.Printing? && IsSubmission(call)
    ensures CallsAreAnnounced(SubmitCourse(first, call, world), world)
  {
    OneCall(call);
    var course := SubmitCourse(first, call, world);
    if world.backend.Ok? {
      assert course.notes[1].status.Submitted?;
    }
  }

  lemma BeforeIsAnnounced(notes: seq<Note>, calls: seq<Call>, course: Course, world: World)
    requires CallsAreAnnounced(course, world) && Submissions(calls) == 0
    requires forall note :: note in notes ==> !note.status.Submitted?
    ensures CallsAreAnnounced(Before(notes, calls, course), world)
  {
    SubmissionsConcat(calls, course.calls);
    var all := notes + course.notes;
    if i :| 0 <= i < |course.notes| && course.notes[i].status.Submitted? {
      assert all[|notes| + i].status.Submitted?;
    }
    assert forall k :: 0 <= k < |notes| ==> all[k] == notes[k] && notes[k] in notes;
    if i :| 0 <= i < |all| && all[i].status.Submitted? {
      assert i >= |notes|;
      assert course.notes[i - |notes|].status.Submitted?;
    }
  }

  lemma FailIsAnnounced(course: Course, world: World)
    requires course.end.Err? && Submissions(course.calls) == 0
    requires forall note :: note in course.notes ==> !note.status.Submitted?
    ensures CallsAreAnnounced(course, world)
  {
  }

  lemma HtmlIsAnnounced(codecs: Codecs, queued: QueuedJob, options: PrintOptions, world: World)
    ensures CallsAreAnnounced(HtmlCourse(codecs, queued, options, world), world)
  {
    hide CallsAreAnnounced, SubmitCourse, HtmlSource;
    var course := HtmlCourse(codecs, queued, options, world);
    var source := HtmlSource(codecs, queued.job);
    if source.Err? {
      FailIsAnnounced(course, world);
    } else {
      var render := RenderCall(queued, source.value, options);
      OneCall(render);
      if world.render.Err? {
        FailIsAnnounced(course, world);
      } else {
        var submit := SubmitCourse(Note(Printing, "printing"), PrintPdf(options), world);
        SubmitIsAnnounced(Note(Printing, "printing"), PrintPdf(options), world);
        BeforeIsAnnounced([Note(Printing, "rendering html with " + world.render.value)], [render], submit, world);
      }
    }
  }

  lemma FileIsAnnounced(job: PrintJob, options: PrintOptions, world: World)
    ensures CallsAreAnnounced(FileCourse(job, options, world), world)
  {
    hide CallsAreAnnounced, SubmitCourse, PreparePdf;
    var prepared := PreparePdf(job.format, world);
    if prepared.Err? {
      FailIsAnnounced(FileCourse(job, options, world), world);
    } else {
      var conversion :=
        if prepared.value.Some? then [Note(Printing, "converted office with " + prepared.value.value)] else [];
      SubmitIsAnnounced(Note(Printing, "printing"), PrintPdf(options), world);
      BeforeIsAnnounced(conversion, [], SubmitCourse(Note(Printing, "printing"), PrintPdf(options), world), world);
    }
  }

  lemma InnerIsAnnounced(codecs: Codecs, queued: QueuedJob, config: Config, world: World)
    ensures CallsAreAnnounced(InnerCourse(codecs, queued, config, world), world)
  {
    hide CallsAreAnnounced, SubmitCourse, HtmlCourse, FileCourse, RawData;
    var job := queued.job;
    var course := InnerCourse(codecs, queued, config, world);
    var options := ResolvePrintOptions(job, config);
    if IsFileFormat(job.format) {
      if job.fileUrl.Some? {
        OneCall(Download(job.fileUrl.value));
      }
      if job.fileUrl.None? || options.Err? || world.download.Err? {
        FailIsAnnounced(course, world);
      } else {
        FileIsAnnounced(job, options.value, world);
        BeforeIsAnnounced([Note(Downloading, "downloading")], [Download(job.fileUrl.value)],
                          FileCourse(job, options.value, world), world);
      }
    } else if job.format.Raw? {
      var printer, data := ResolvePrinterName(job, config), RawData(codecs, job, config);
      if printer.Err? || data.Err? {
        FailIsAnnounced(course, world);
      } else {
        SubmitIsAnnounced(Note(Printing, "printing raw"), PrintRaw(printer.value, data.value), world);
      }
    } else if options.Err? {
      FailIsAnnounced(course, world);
    } else {
      HtmlIsAnnounced(codecs, queued, options.value, world);
    }
  }

  /**
   The backend is called at most once per job; Submitted is announced exactly when that call
   was made and succeeded, and a job without a backend call ends in Failed.
   */
  lemma SubmissionIsTruthful(codecs: Codecs, queued: QueuedJob, config: Config, world: World)
    ensures var course := JobCourse(codecs, queued, config, world);
            var statuses := Statuses(Trace(codecs, queued, config, world));
            && Submissions(course.calls) <= 1
            && (Submitted in statuses <==> Submissions(course.calls) == 1 && world.backend.Ok?)
            && (Submissions(course.calls) == 0 ==> statuses[|statuses| - 1] == Failed)
            && (course.end.Err? <==> Submitted !in statuses)
  {
    hide InnerCourse, Submissions;
    var inner := InnerCourse(codecs, queued, config, world);
    InnerIsAnnounced(codecs, queued, config, world);
    var notes := Framed(inner).notes;
    var statuses := Statuses(Trace(codecs, queued, config, world));
    assert forall i :: 0 <= i < |notes| ==> statuses[i] == notes[i].status;
    if i :| 0 <= i < |inner.notes| && inner.notes[i].status.Submitted? {
      assert statuses[i + 1] == Submitted;
    }
    if i :| 0 <= i < |statuses| && statuses[i] == Submitted {
      assert notes[i].status.Submitted?;
      assert inner.notes[i - 1] == notes[i];
    }
  }

  // ----- What acceptance means for the worker -----

  /** No complaint about a malformed job, nor about a format that has no business where it is. */
  predicate IsBenign(end: Ending, format: Format) {
    end.Err? ==> !end.error.InvalidJob? && (end.error.UnsupportedFormat? ==> IsFileFormat(format))
  }

  lemma RawIsBenign(codecs: Codecs, job: PrintJob, mb: nat, printer: string, config: Config, world: World)
    requires job.format.Raw? && ValidateRaw(codecs.decodeBase64, job, mb).Ok?
    ensures IsBenign(RawCourse(codecs, job, printer, config, world).end, job.format)
  {
  }

  lemma HtmlIsBenign(codecs: Codecs, queued: QueuedJob, mb: nat, options: PrintOptions, world: World)
    requires queued.job.format.Html? ==> ValidateHtmlFileJob(codecs.parseUrl, queued.job).Ok?
    requires queued.job.format.RawHtml? ==> ValidateRawHtml(queued.job, mb).Ok?
    requires queued.job.format.Html? || queued.job.format.RawHtml?
    ensures IsBenign(HtmlCourse(codecs, queued, options, world).end, queued.job.format)
  {
    hide Utf8Length, Trim;
  }

  lemma FileIsBenign(job: PrintJob, options: PrintOptions, world: World)
    requires IsFileFormat(job.format)
    ensures IsBenign(FileCourse(job, options, world).end, job.format)
  {
  }

  /**
   A job that passed acceptance never reaches the worker's complaints about a malformed job,
   nor the impossible format of the HTML path, whatever the configuration has become since.
   */
  lemma AcceptanceCoversWorker(codecs: Codecs, queued: QueuedJob, config: Config, world: World)
    requires Admitted(codecs, queued.job)
    ensures var end := JobCourse(codecs, queued, config, world).end;
            end.Err? ==> !end.error.InvalidJob? && (end.error.UnsupportedFormat? ==> IsFileFormat(queued.job.format))
  {
    hide RawCourse, HtmlCourse, FileCourse, ValidateRaw, ValidateHtmlFileJob, ValidateRawHtml, ValidateNonHtmlFields;
    var job := queued.job;
    var mb: nat :| ValidateForAcceptance(codecs, job, mb).Ok?;
    var printer, options := ResolvePrinterName(job, config), ResolvePrintOptions(job, config);
    if job.format.Raw? {
      if printer.Ok? {
        RawIsBenign(codecs, job, mb, printer.value, config, world);
      }
    } else if options.Ok? {
      if job.format.Html? || job.format.RawHtml? {
        HtmlIsBenign(codecs, queued, mb, options.value, world);
      } else {
        FileIsBenign(job, options.value, world);
      }
    }
    assert IsFileFormat(job.format) ==> job.fileUrl.Some?;
  }

  // ----- What the outside world is asked -----

  /** The job names its document in the way its format calls for. */
  predicate HasSource(codecs: Codecs, job: PrintJob) {
    match job.format
    case Html => job.fileUrl.Some? && codecs.parseUrl(job.fileUrl.value).Some?
    case RawHtml => job.html.Some?
    case Raw => job.dataBase64.Some? && codecs.decodeBase64(job.dataBase64.value).Some?
    case _ => job.fileUrl.Some?
  }

  /** A printer is known and, except for raw jobs, also a paper and an allowed number of copies. */
  predicate HasOptions(job: PrintJob, config: Config) {
    && Coalesce(job.printerName, config.defaultPrinter).Some?
    && (!job.format.Raw? ==>
          && Coalesce(job.paper, config.defaultPaper).Some?
          && 1 <= Coalesce(job.copies, Some(1)).value <= config.maxCopies)
  }

  /** Everything a job can make the worker ask for, in order: the job's own settings, else the defaults. */
  function Plan(codecs: Codecs, queued: QueuedJob, config: Config): seq<Call>
    requires HasSource(codecs, queued.job) && HasOptions(queued.job, config)
  {
    var job := queued.job;
    var printer := Coalesce(job.printerName, config.defaultPrinter).value;
    if job.format.Raw? then [PrintRaw(printer, codecs.decodeBase64(job.dataBase64.value).value)]
    else
      var paper := Coalesce(job.paper, config.defaultPaper).value;
      var pdf := PrintPdf(PrintOptions(printer, paper, Coalesce(job.copies, Some(1)).value));
      var wait := Coalesce(job.waitMs, Some(DEFAULT_HTML_WAIT_MS)).value;
      if job.format.Html? then
        [Render(PageAt(codecs.parseUrl(job.fileUrl.value).value), queued.localOrigin, paper, wait), pdf]
      else if job.format.RawHtml? then [Render(Inline(job.html.value), queued.localOrigin, paper, wait), pdf]
      else [Download(job.fileUrl.value), pdf]
  }

  lemma AcceptedHasSource(codecs: Codecs, job: PrintJob)
    requires Admitted(codecs, job)
    ensures HasSource(codecs, job)
    ensures job.format.Html? ==> HtmlSource(codecs, job) == Ok(PageAt(codecs.parseUrl(job.fileUrl.value).value))
    ensures job.format.RawHtml? ==> HtmlSource(codecs, job) == Ok(Inline(job.html.value))
  {
    hide ValidateNonHtmlFields, ValidateHtmlWait, Utf8Length, Trim, MaxBytes;
    var mb: nat :| ValidateForAcceptance(codecs, job, mb).Ok?;
  }

  lemma OptionsAreResolved(job: PrintJob, config: Config)
    ensures ResolvePrinterName(job, config).Ok? <==> Coalesce(job.printerName, config.defaultPrinter).Some?
    ensures !job.format.Raw? ==> (ResolvePrintOptions(job, config).Ok? <==> HasOptions(job, config))
  {
  }

  lemma CountsOf(first: Call, last: Call)
    requires !IsSubmission(first) && IsSubmission(last)
    ensures Submissions([]) == 0 && Submissions([first]) == 0 && Submissions([last]) == 1
    ensures Submissions([first, last]) == 1
  {
    OneCall(first);
    OneCall(last);
    assert [first, last][..1] == [first];
  }

  lemma HtmlCalls(codecs: Codecs, queued: QueuedJob, options: PrintOptions, world: World)
    requires HtmlSource(codecs, queued.job).Ok?
    ensures var render := RenderCall(queued, HtmlSource(codecs, queued.job).value, options);
            var calls := HtmlCourse(codecs, queued, options, world).calls;
            calls == [render] || calls == [render, PrintPdf(options)]
  {
    hide HtmlSource;
  }

  lemma FileCalls(job: PrintJob, options: PrintOptions, world: World)
    ensures var calls := FileCourse(job, options, world).calls; calls == [] || calls == [PrintPdf(options)]
  {
    hide PreparePdf;
  }

  /**
   The worker follows the plan of an accepted job: it asks for a first part of it and for nothing
   else, for nothing at all when the options are not known, and it reaches the printer exactly
   when it has gone through the whole plan.
   */
  lemma CallsFollowPlan(codecs: Codecs, queued: QueuedJob, config: Config, world: World)
    requires Admitted(codecs, queued.job)
    ensures HasSource(codecs, queued.job)
    ensures var calls := JobCourse(codecs, queued, config, world).calls;
            if HasOptions(queued.job, config) then
              && calls <= Plan(codecs, queued, config)
              && (Submissions(calls) == 1 <==> calls == Plan(codecs, queued, config))
            else calls == []
  {
    hide FileCourse, HtmlCourse, HtmlSource, Submissions, MaxBytes;
    var job := queued.job;
    AcceptedHasSource(codecs, job);
    OptionsAreResolved(job, config);
    if HasOptions(job, config) {
      var plan := Plan(codecs, queued, config);
      if job.format.Raw? {
        CountsOf(Download(""), plan[0]);
      } else {
        CountsOf(plan[0], plan[1]);
        var options := ResolvePrintOptions(job, config).value;
        if IsFileFormat(job.format) {
          FileCalls(job, options, world);
        } else {
          HtmlCalls(codecs, queued, options, world);
        }
        var calls := JobCourse(codecs, queued, config, world).calls;
        assert calls == [plan[0]] || calls == [plan[0], plan[1]];
        assert plan == [plan[0], plan[1]];
      }
    }
  }

  // ----- The configured number of copies -----

  /** The configured number of copies is never read. */
  lemma DefaultCopiesIsNeverRead(codecs: Codecs, queued: QueuedJob, config: Config, world: World, n: nat)
    ensures JobCourse(codecs, queued, config.(defaultCopies := n), world) == JobCourse(codecs, queued, config, world)
  {
    hide HtmlCourse, FileCourse, SubmitCourse;
    assert RawData(codecs, queued.job, config.(defaultCopies := n)) == RawData(codecs, queued.job, config);
  }

  /** The number of copies that the configuration reference promises. */
  function PromisedCopies(job: PrintJob, config: Config): nat {
    Coalesce(job.copies, Some(config.defaultCopies)).value
  }

  /**
   The promise is kept exactly for jobs that say how many copies they want, and otherwise exactly
   when the configured number is one.
   */
  lemma CopiesAsPromisedExactly(codecs: Codecs, queued: QueuedJob, config: Config, world: World)
    requires Admitted(codecs, queued.job) && !queued.job.format.Raw?
    requires HasSource(codecs, queued.job) && HasOptions(queued.job, config)
    ensures var plan := Plan(codecs, queued, config);
            && plan[|plan| - 1].PrintPdf?
            && (plan[|plan| - 1].options.copies == PromisedCopies(queued.job, config)
                <==> queued.job.copies.Some? || config.defaultCopies == 1)
    ensures forall call :: call in JobCourse(codecs, queued, config, world).calls && call.PrintPdf? ==>
              (call.options.copies == PromisedCopies(queued.job, config)
               <==> queued.job.copies.Some? || config.defaultCopies == 1)
  {
    hide JobCourse, Submissions;
    CallsFollowPlan(codecs, queued, config, world);
    var plan := Plan(codecs, queued, config);
    forall call | call in JobCourse(codecs, queued, config, world).calls && call.PrintPdf?
      ensures call == plan[|plan| - 1]
    {
      assert call in plan;
    }
  }

  /** For instance, with two copies configured a job that names no number is printed once. */
  lemma TwoConfiguredCopiesPrintOnce()
    ensures exists codecs: Codecs, queued: QueuedJob, config: Config, world: World ::
              && Admitted(codecs, queued.job) && queued.job.copies.None? && config.defaultCopies == 2
              && HasSource(codecs, queued.job) && HasOptions(queued.job, config)
              && JobCourse(codecs, queued, config, world).calls
                 == [Download("u"), PrintPdf(PrintOptions("p", Paper(21000, 29700), 1))]
  {
    var codecs := Codecs(_ => None, _ => None);
    var job := PrintJob("a", Pdf, Some("p"), Some("u"), None, None, None, None, Some(Paper(21000, 29700)));
    var queued := QueuedJob("r", None, job, None);
    var config := Config(None, None, 2, 1, 10);
    var world := World(Ok(Unit), Ok(None), Ok(""), Ok(Some(PdfDocument)), Ok(Unit), Ok(Unit), Ok(""),
                       Ok(Submission(false)), TrackedUnknown(""));
    assert ValidateForAcceptance(codecs, job, 1).Ok?;
    var options := PrintOptions("p", Paper(21000, 29700), 1);
    assert ResolvePrintOptions(job, config) == Ok(options);
    assert FileCourse(job, options, world).calls == [PrintPdf(options)];
    assert JobCourse(codecs, queued, config, world).calls == [Download("u"), PrintPdf(options)];
  }
}
