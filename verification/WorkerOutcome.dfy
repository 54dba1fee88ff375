/**
 When a job is printed and how it ends, stated over the job, the configuration and the answers of
 the outside world: what has to hold for the printer to be reached, which error ends the job
 otherwise, and what the last status says.
 */
module WorkerOutcome {
  import opened Common
  import opened Protocol
  import opened Queue
  import opened Server
  import opened Worker

  // ----- When the printer is reached -----

  predicate IsOffice(format: Format) {
    format.Docx? || format.Xlsx? || format.Pptx?
  }

  /** The Office document that was found is of the kind that the job announced. */
  predicate OfficeFits(format: Format, found: OfficeFormat) {
    (format.Docx? && found.OfficeDocx?) || (format.Xlsx? && found.OfficeXlsx?) || (format.Pptx? && found.OfficePptx?)
  }

  /** A PDF for a PDF job; a PNG for an image or PNG job; a JPEG for an image, JPG or JPEG job. */
  predicate DocumentFits(format: Format, found: DocumentFormat) {
    match found
    case PdfDocument => format.Pdf?
    case PngDocument => format.Image? || format.Png?
    case JpegDocument => format.Image? || format.Jpg? || format.Jpeg?
  }

  /** The downloaded document is what the job announced, and a printable PDF could be made of it. */
  predicate IsPrepared(format: Format, world: World) {
    if IsOffice(format) then
      && world.officeKind.Ok? && world.officeKind.value.Some?
      && OfficeFits(format, world.officeKind.value.value)
      && world.officeConverter.Ok?
    else
      && world.documentKind.Ok? && world.documentKind.value.Some?
      && DocumentFits(format, world.documentKind.value.value)
      && (if world.documentKind.value.value.PdfDocument? then world.pdfCopy.Ok? else world.imageToPdf.Ok?)
  }

  /** The job's address is an HTTP page with a host. */
  predicate HasPage(codecs: Codecs, job: PrintJob) {
    && job.fileUrl.Some?
    && var url := codecs.parseUrl(job.fileUrl.value);
    && url.Some? && IsHttp(url.value) && url.value.host.Some?
  }

  /** What is to be printed has been obtained, in the way the format calls for. */
  predicate Obtained(codecs: Codecs, job: PrintJob, config: Config, world: World) {
    match job.format
    case Raw =>
      && job.dataBase64.Some?
      && var data := codecs.decodeBase64(job.dataBase64.value);
      && data.Some? && |data.value| <= MaxBytes(config.maxFileSizeMb)
    case Html => HasPage(codecs, job) && world.render.Ok?
    case RawHtml => job.html.Some? && world.render.Ok?
    case _ => job.fileUrl.Some? && world.download.Ok? && IsPrepared(job.format, world)
  }

  lemma PreparedExactly(format: Format, world: World)
    requires IsFileFormat(format)
    ensures PreparePdf(format, world).Ok? <==> IsPrepared(format, world)
    ensures PreparePdf(format, world).Ok? ==> (PreparePdf(format, world).value.Some? <==> IsOffice(format))
  {
  }

  lemma RawPrinted(codecs: Codecs, job: PrintJob, printer: string, config: Config, world: World)
    requires job.format.Raw?
    ensures Submissions(RawCourse(codecs, job, printer, config, world).calls) == 1
            <==> Obtained(codecs, job, config, world)
  {
    var data := RawData(codecs, job, config);
    if data.Ok? {
      OneCall(PrintRaw(printer, data.value));
    }
  }

  lemma HtmlPrinted(codecs: Codecs, queued: QueuedJob, options: PrintOptions, config: Config, world: World)
    requires queued.job.format.Html? || queued.job.format.RawHtml?
    ensures Submissions(HtmlCourse(codecs, queued, options, world).calls) == 1
            <==> Obtained(codecs, queued.job, config, world)
  {
    var source := HtmlSource(codecs, queued.job);
    if source.Ok? {
      CountsOf(RenderCall(queued, source.value, options), PrintPdf(options));
      assert [RenderCall(queued, source.value, options)] + [PrintPdf(options)]
          == [RenderCall(queued, source.value, options), PrintPdf(options)];
    }
  }

  lemma FilePrinted(job: PrintJob, options: PrintOptions, world: World)
    requires IsFileFormat(job.format)
    ensures FileCourse(job, options, world).calls == if IsPrepared(job.format, world) then [PrintPdf(options)] else []
  {
    hide PreparePdf, IsPrepared;
    PreparedExactly(job.format, world);
  }

  /**
   The print system is asked for a job, accepted or not, if and only if the options are known and
   what is to be printed has been obtained.
   */
  lemma PrintedExactly(codecs: Codecs, queued: QueuedJob, config: Config, world: World)
    ensures Submissions(JobCourse(codecs, queued, config, world).calls) == 1
            <==> HasOptions(queued.job, config) && Obtained(codecs, queued.job, config, world)
  {
    hide RawCourse, HtmlCourse, FileCourse, IsPrepared, Submissions;
    var job := queued.job;
    var printer, options := ResolvePrinterName(job, config), ResolvePrintOptions(job, config);
    OptionsAreResolved(job, config);
    CountsOf(Download(""), PrintPdf(PrintOptions("", Paper(0, 0), 1)));
    if job.format.Raw? {
      if printer.Ok? {
        RawPrinted(codecs, job, printer.value, config, world);
      }
    } else if job.format.Html? || job.format.RawHtml? {
      if options.Ok? {
        HtmlPrinted(codecs, queued, options.value, config, world);
      }
    } else if job.fileUrl.Some? {
      var download := Download(job.fileUrl.value);
      if options.Ok? {
        FilePrinted(job, options.value, world);
        CountsOf(download, PrintPdf(options.value));
        assert [download] + [PrintPdf(options.value)] == [download, PrintPdf(options.value)];
        assert [download] + [] == [download];
      }
    }
  }

  // ----- Which error ends a job -----

  /** Something that has to hold, and the error that ends the job when it does not. */
  datatype Check = Check(holds: bool, error: ProcessError)

  /** The first check that fails decides. */
  function Verdict(checks: seq<Check>): Ending {
    if checks == [] then Ok(Unit)
    else if !checks[0].holds then Err(checks[0].error)
    else Verdict(checks[1..])
  }

  /** The outside world gave an answer; otherwise its own words end the job. */
  function Answered<T>(answer: Result<T, string>): Check {
    Check(answer.Ok?, External(if answer.Err? then answer.error else ""))
  }

  function PrinterChecks(job: PrintJob, config: Config): seq<Check> {
    [Check(job.printerName.Some? || config.defaultPrinter.Some?, PrinterNotConfigured)]
  }

  function OptionChecks(job: PrintJob, config: Config): seq<Check> {
    PrinterChecks(job, config)
    + [Check(job.paper.Some? || config.defaultPaper.Some?, PaperNotConfigured),
       Check(1 <= Coalesce(job.copies, Some(1)).value <= config.maxCopies, CopiesOutOfRange)]
  }

  function RawChecks(codecs: Codecs, job: PrintJob, config: Config): seq<Check> {
    var data := if job.dataBase64.Some? then codecs.decodeBase64(job.dataBase64.value) else None;
    [Check(job.dataBase64.Some?, InvalidJob("raw job requires data_base64")),
     Check(data.Some?, InvalidJob("invalid raw data_base64")),
     Check(data.Some? && |data.value| <= MaxBytes(config.maxFileSizeMb), DataTooLarge)]
  }

  function HtmlChecks(codecs: Codecs, job: PrintJob, world: World): seq<Check> {
    (if job.format.Html? then
       [Check(job.fileUrl.Some?, InvalidJob("html job requires file_url")),
        Check(HasPage(codecs, job), InvalidJob("invalid html file_url"))]
     else [Check(job.html.Some?, InvalidJob("raw-html job requires html"))])
    + [Answered(world.render)]
  }

  function PreparationChecks(format: Format, world: World): seq<Check> {
    if IsOffice(format) then
      var found := if world.officeKind.Ok? then world.officeKind.value else None;
      [Answered(world.officeKind),
       Check(found.Some? && OfficeFits(format, found.value), FormatMismatch(FormatName(format), OfficeName(found))),
       Answered(world.officeConverter)]
    else
      var found := if world.documentKind.Ok? then world.documentKind.value else None;
      [Answered(world.documentKind),
       Check(found.Some?, UnsupportedFormat),
       Check(found.Some? && DocumentFits(format, found.value),
             FormatMismatch(FormatName(format), if found.Some? then DocumentName(found.value) else "")),
       Answered(if found == Some(PdfDocument) then world.pdfCopy else world.imageToPdf)]
  }

  /** Everything that has to hold before the print system is asked, in the order it is looked at. */
  function ChecksBefore(codecs: Codecs, job: PrintJob, config: Config, world: World): seq<Check> {
    if job.format.Raw? then PrinterChecks(job, config) + RawChecks(codecs, job, config)
    else if job.format.Html? || job.format.RawHtml? then OptionChecks(job, config) + HtmlChecks(codecs, job, world)
    else
      [Check(job.fileUrl.Some?, InvalidJob("file job requires file_url"))]
      + OptionChecks(job, config)
      + ([Answered(world.download)] + PreparationChecks(job.format, world))
  }

  lemma {:induction false} VerdictConcat(a: seq<Check>, b: seq<Check>)
    ensures Verdict(a + b) == if Verdict(a).Err? then Verdict(a) else Verdict(b)
  {
    if a == [] {
      assert a + b == b;
    } else {
      assert (a + b)[1..] == a[1..] + b;
      VerdictConcat(a[1..], b);
    }
  }

  lemma VerdictOfTwo(checks: seq<Check>)
    requires |checks| == 2
    ensures Verdict(checks) == if !checks[0].holds then Err(checks[0].error)
                               else if !checks[1].holds then Err(checks[1].error)
                               else Ok(Unit)
  {
    assert Verdict(checks[1..][1..]) == Ok(Unit);
  }

  lemma VerdictOfThree(checks: seq<Check>)
    requires |checks| == 3
    ensures Verdict(checks) == if !checks[0].holds then Err(checks[0].error)
                               else if !checks[1].holds then Err(checks[1].error)
                               else if !checks[2].holds then Err(checks[2].error)
                               else Ok(Unit)
  {
    VerdictOfTwo(checks[1..]);
  }

  lemma VerdictOfFour(checks: seq<Check>)
    requires |checks| == 4
    ensures Verdict(checks) == if !checks[0].holds then Err(checks[0].error)
                               else if !checks[1].holds then Err(checks[1].error)
                               else if !checks[2].holds then Err(checks[2].error)
                               else if !checks[3].holds then Err(checks[3].error)
                               else Ok(Unit)
  {
    VerdictOfThree(checks[1..]);
  }

  lemma VerdictOfOne(check: Check)
    ensures Verdict([check]) == if check.holds then Ok(Unit) else Err(check.error)
  {
    assert [check][1..] == [];
  }

  /** A result that is an error exactly when some check fails, and then the error of the first. */
  predicate Agrees<T>(r: Result<T, ProcessError>, checks: seq<Check>) {
    if r.Ok? then Verdict(checks).Ok? else Verdict(checks) == Err(r.error)
  }

  lemma OptionsAgree(job: PrintJob, config: Config)
    ensures Agrees(ResolvePrinterName(job, config), PrinterChecks(job, config))
    ensures Agrees(ResolvePrintOptions(job, config), OptionChecks(job, config))
  {
    VerdictOfOne(PrinterChecks(job, config)[0]);
    VerdictOfThree(OptionChecks(job, config));
  }

  lemma PreparationAgrees(format: Format, world: World)
    requires IsFileFormat(format)
    ensures Agrees(PreparePdf(format, world), PreparationChecks(format, world))
  {
    var checks := PreparationChecks(format, world);
    if IsOffice(format) {
      VerdictOfThree(checks);
    } else {
      VerdictOfFour(checks);
    }
  }

  lemma SubmitAgrees(first: Note, call: Call, world: World)
    ensures SubmitCourse(first, call, world).end == Verdict([Answered(world.backend)])
  {
    VerdictOfOne(Answered(world.backend));
  }

  lemma RawAgrees(codecs: Codecs, job: PrintJob, printer: string, config: Config, world: World)
    ensures RawCourse(codecs, job, printer, config, world).end
            == Verdict(RawChecks(codecs, job, config) + [Answered(world.backend)])
  {
    hide SubmitCourse, MaxBytes;
    var data := RawData(codecs, job, config);
    VerdictOfThree(RawChecks(codecs, job, config));
    VerdictConcat(RawChecks(codecs, job, config), [Answered(world.backend)]);
    if data.Ok? {
      SubmitAgrees(Note(Printing, "printing raw"), PrintRaw(printer, data.value), world);
    }
  }

  lemma HtmlAgrees(codecs: Codecs, queued: QueuedJob, options: PrintOptions, world: World)
    requires queued.job.format.Html? || queued.job.format.RawHtml?
    ensures HtmlCourse(codecs, queued, options, world).end
            == Verdict(HtmlChecks(codecs, queued.job, world) + [Answered(world.backend)])
  {
    hide SubmitCourse;
    var checks := HtmlChecks(codecs, queued.job, world);
    if queued.job.format.Html? {
      VerdictOfThree(checks);
    } else {
      VerdictOfTwo(checks);
    }
    VerdictConcat(checks, [Answered(world.backend)]);
    SubmitAgrees(Note(Printing, "printing"), PrintPdf(options), world);
  }

  lemma FileAgrees(job: PrintJob, options: PrintOptions, world: World)
    requires IsFileFormat(job.format)
    ensures FileCourse(job, options, world).end
            == Verdict(PreparationChecks(job.format, world) + [Answered(world.backend)])
  {
    hide SubmitCourse, PreparePdf, PreparationChecks;
    PreparationAgrees(job.format, world);
    VerdictConcat(PreparationChecks(job.format, world), [Answered(world.backend)]);
    SubmitAgrees(Note(Printing, "printing"), PrintPdf(options), world);
  }

  /**
   A job, accepted or not, ends with the error of the first check that fails, in the order in which
   the worker looks at them, the print system's own answer last; and well when none fails.
   */
  lemma EndsAtFirstFailedCheck(codecs: Codecs, queued: QueuedJob, config: Config, world: World)
    ensures JobCourse(codecs, queued, config, world).end
            == Verdict(ChecksBefore(codecs, queued.job, config, world) + [Answered(world.backend)])
  {
    hide RawCourse, HtmlCourse, FileCourse, Verdict, Answered;
    hide RawChecks, HtmlChecks, PreparationChecks, OptionChecks, PrinterChecks;
    hide ResolvePrinterName, ResolvePrintOptions;
    var job := queued.job;
    var last := [Answered(world.backend)];
    var printer, options := ResolvePrinterName(job, config), ResolvePrintOptions(job, config);
    OptionsAgree(job, config);
    if job.format.Raw? {
      var checks := RawChecks(codecs, job, config);
      VerdictConcat(PrinterChecks(job, config), checks + last);
      assert PrinterChecks(job, config) + checks + last == PrinterChecks(job, config) + (checks + last);
      if printer.Ok? {
        RawAgrees(codecs, job, printer.value, config, world);
      }
    } else if job.format.Html? || job.format.RawHtml? {
      var checks := HtmlChecks(codecs, job, world);
      VerdictConcat(OptionChecks(job, config), checks + last);
      assert OptionChecks(job, config) + checks + last == OptionChecks(job, config) + (checks + last);
      if options.Ok? {
        HtmlAgrees(codecs, queued, options.value, world);
      }
    } else {
      FileEndsAtFirst(codecs, queued, config, world);
    }
  }

  lemma FileEndsAtFirst(codecs: Codecs, queued: QueuedJob, config: Config, world: World)
    requires IsFileFormat(queued.job.format)
    ensures JobCourse(codecs, queued, config, world).end
            == Verdict(ChecksBefore(codecs, queued.job, config, world) + [Answered(world.backend)])
  {
    hide FileCourse, PreparationChecks, OptionChecks, ResolvePrintOptions, Verdict;
    var job := queued.job;
    var named := Check(job.fileUrl.Some?, InvalidJob("file job requires file_url"));
    var download, last := Answered(world.download), [Answered(world.backend)];
    var settings, preparation := OptionChecks(job, config), PreparationChecks(job.format, world);
    var options := ResolvePrintOptions(job, config);
    OptionsAgree(job, config);
    VerdictOfOne(named);
    VerdictOfOne(download);
    VerdictConcat([named], settings + ([download] + (preparation + last)));
    VerdictConcat(settings, [download] + (preparation + last));
    VerdictConcat([download], preparation + last);
    assert [named] + settings + ([download] + preparation) + last
        == [named] + (settings + ([download] + (preparation + last)));
    if job.fileUrl.Some? && options.Ok? && world.download.Ok? {
      FileAgrees(job, options.value, world);
    }
  }

  // ----- The whole history of a job -----

  function Outcome(tracking: Tracking): JobStatus {
    if tracking.TrackedCompleted? then Completed else if tracking.TrackedFailed? then Failed else Unknown
  }

  /** What follows the announcement of the print system. */
  function AfterAsking(world: World): seq<JobStatus> {
    if world.backend.Err? then [Failed]
    else if world.backend.value.trackingSupported then [Submitted, Outcome(world.tracking)]
    else [Submitted]
  }

  /** The announcements of the print system: a rendering or an Office conversion has one of its own. */
  function Announcements(format: Format): seq<JobStatus> {
    if format.Html? || format.RawHtml? || IsOffice(format) then [Printing, Printing] else [Printing]
  }

  /** The statuses of a job, from whether the print system is reached and what it answers. */
  function History(format: Format, reached: bool, world: World): seq<JobStatus> {
    [Queued]
    + (if IsFileFormat(format) then [Downloading] else [])
    + (if reached then Announcements(format) + AfterAsking(world) else [Failed])
  }

  /** The statuses of a course, with the Failed that an error adds. */
  function Told(course: Course): seq<JobStatus> {
    NoteStatuses(course.notes) + (if course.end.Err? then [Failed] else [])
  }

  lemma ToldBefore(notes: seq<Note>, calls: seq<Call>, course: Course)
    ensures Told(Before(notes, calls, course)) == NoteStatuses(notes) + Told(course)
  {
  }

  lemma SubmitTells(first: Note, call: Call, world: World)
    requires first.status.Printing?
    ensures Told(SubmitCourse(first, call, world)) == [Printing] + AfterAsking(world)
  {
  }

  lemma RawTells(codecs: Codecs, job: PrintJob, printer: string, config: Config, world: World)
    requires job.format.Raw?
    ensures Told(RawCourse(codecs, job, printer, config, world))
            == if Obtained(codecs, job, config, world) then [Printing] + AfterAsking(world) else [Failed]
  {
    hide SubmitCourse, AfterAsking;
    var data := RawData(codecs, job, config);
    if data.Ok? {
      SubmitTells(Note(Printing, "printing raw"), PrintRaw(printer, data.value), world);
    }
  }

  lemma HtmlTells(codecs: Codecs, queued: QueuedJob, options: PrintOptions, config: Config, world: World)
    requires queued.job.format.Html? || queued.job.format.RawHtml?
    ensures Told(HtmlCourse(codecs, queued, options, world))
            == if Obtained(codecs, queued.job, config, world)
               then [Printing, Printing] + AfterAsking(world) else [Failed]
  {
    hide SubmitCourse, AfterAsking, Before;
    var source := HtmlSource(codecs, queued.job);
    if source.Ok? && world.render.Ok? {
      var rendering := [Note(Printing, "rendering html with " + world.render.value)];
      var render := [RenderCall(queued, source.value, options)];
      var submit := SubmitCourse(Note(Printing, "printing"), PrintPdf(options), world);
      ToldBefore(rendering, render, submit);
      SubmitTells(Note(Printing, "printing"), PrintPdf(options), world);
      assert NoteStatuses(rendering) == [Printing];
      assert [Printing] + ([Printing] + AfterAsking(world)) == [Printing, Printing] + AfterAsking(world);
    }
  }

  lemma FileTells(job: PrintJob, options: PrintOptions, world: World)
    requires IsFileFormat(job.format)
    ensures Told(FileCourse(job, options, world))
            == if IsPrepared(job.format, world) then Announcements(job.format) + AfterAsking(world) else [Failed]
  {
    hide SubmitCourse, AfterAsking, Before, PreparePdf, IsPrepared;
    PreparedExactly(job.format, world);
    var prepared := PreparePdf(job.format, world);
    if prepared.Ok? {
      var conversion :=
        if prepared.value.Some? then [Note(Printing, "converted office with " + prepared.value.value)] else [];
      ToldBefore(conversion, [], SubmitCourse(Note(Printing, "printing"), PrintPdf(options), world));
      SubmitTells(Note(Printing, "printing"), PrintPdf(options), world);
      assert NoteStatuses(conversion) == if IsOffice(job.format) then [Printing] else [];
      assert NoteStatuses(conversion) + ([Printing] + AfterAsking(world))
          == Announcements(job.format) + AfterAsking(world);
    }
  }

  lemma InnerTells(codecs: Codecs, queued: QueuedJob, config: Config, world: World)
    ensures var job := queued.job;
            var reached := HasOptions(job, config) && Obtained(codecs, job, config, world);
            [Queued] + Told(InnerCourse(codecs, queued, config, world)) == History(job.format, reached, world)
  {
    hide RawCourse, HtmlCourse, FileCourse, Before, IsPrepared, AfterAsking;
    var job := queued.job;
    var printer, options := ResolvePrinterName(job, config), ResolvePrintOptions(job, config);
    OptionsAreResolved(job, config);
    if job.format.Raw? {
      if printer.Ok? {
        RawTells(codecs, job, printer.value, config, world);
      }
    } else if job.format.Html? || job.format.RawHtml? {
      if options.Ok? {
        HtmlTells(codecs, queued, options.value, config, world);
      }
    } else {
      var downloading := [Note(Downloading, "downloading")];
      assert NoteStatuses(downloading) == [Downloading];
      if job.fileUrl.Some? && options.Ok? && world.download.Ok? {
        FileTells(job, options.value, world);
        ToldBefore(downloading, [Download(job.fileUrl.value)], FileCourse(job, options.value, world));
      }
    }
  }

  /**
   The whole status history of a job, accepted or not: it is settled by the format, by whether the
   print system is reached, and by what the print system and its tracking answer.
   */
  lemma HistoryExactly(codecs: Codecs, queued: QueuedJob, config: Config, world: World)
    ensures var reached := HasOptions(queued.job, config) && Obtained(codecs, queued.job, config, world);
            Statuses(Trace(codecs, queued, config, world)) == History(queued.job.format, reached, world)
  {
    hide InnerCourse, History;
    InnerTells(codecs, queued, config, world);
    var inner := InnerCourse(codecs, queued, config, world);
    assert Statuses(Trace(codecs, queued, config, world)) == [Queued] + Told(inner);
  }

  /** Every event names its job, batch and request, and a failed job's last message is its error. */
  lemma EventsNameTheirJob(codecs: Codecs, queued: QueuedJob, config: Config, world: World)
    ensures var events := Trace(codecs, queued, config, world);
            var end := JobCourse(codecs, queued, config, world).end;
            && (forall e :: e in events ==>
                  e.requestId == queued.requestId && e.batchId == queued.batchId && e.jobId == queued.job.jobId)
            && |events| > 0
            && (end.Err? ==> events[|events| - 1].message == ErrorText(end.error))
  {
    hide InnerCourse;
  }

  // ----- What exactly is asked -----

  /**
   An accepted job with known options goes through its whole plan when what is to be printed was
   obtained; otherwise it stops after the first call, or for raw data before it.
   */
  lemma CallsExactly(codecs: Codecs, queued: QueuedJob, config: Config, world: World)
    requires Admitted(codecs, queued.job)
    ensures HasSource(codecs, queued.job)
    ensures var calls := JobCourse(codecs, queued, config, world).calls;
            if !HasOptions(queued.job, config) then calls == []
            else if Obtained(codecs, queued.job, config, world) then calls == Plan(codecs, queued, config)
            else calls == Plan(codecs, queued, config)[..if queued.job.format.Raw? then 0 else 1]
  {
    hide JobCourse, Obtained, HasOptions, Plan, HasSource, Submissions;
    CallsFollowPlan(codecs, queued, config, world);
    PrintedExactly(codecs, queued, config, world);
    if HasOptions(queued.job, config) {
      PlanLength(codecs, queued, config);
      if !queued.job.format.Raw? {
        FirstCallIsMade(codecs, queued, config, world);
      }
    }
  }

  lemma PlanLength(codecs: Codecs, queued: QueuedJob, config: Config)
    requires HasSource(codecs, queued.job) && HasOptions(queued.job, config)
    ensures |Plan(codecs, queued, config)| == if queued.job.format.Raw? then 1 else 2
  {
  }

  lemma FirstCallIsMade(codecs: Codecs, queued: QueuedJob, config: Config, world: World)
    requires Admitted(codecs, queued.job) && HasOptions(queued.job, config) && !queued.job.format.Raw?
    ensures |JobCourse(codecs, queued, config, world).calls| >= 1
  {
    hide FileCourse, SubmitCourse, HtmlSource;
    AcceptedHasSource(codecs, queued.job);
    OptionsAreResolved(queued.job, config);
  }
}
