/**
 Print jobs as they arrive over the WebSocket protocol, and the field checks that a job
 must pass before it may enter the queue.

 URL parsing and base64 decoding are libraries: they are parameters here (`Codecs`), so
 every statement holds for whatever those libraries do.
 */
module Protocol {
  import opened Common

  const MAX_HTML_WAIT_MS := 30_000
  const U64_MAX := 0xFFFF_FFFF_FFFF_FFFF

  datatype Format =
    | Pdf | Image | Png | Jpg | Jpeg
    | Docx | Xlsx | Pptx
    | Raw
    | Html
    | RawHtml

  /** A paper size in hundredths of a millimetre, as the client sent it: acceptance does not look at its sign. */
  datatype Paper = Paper(width: int, height: int)

  datatype PrintJob = PrintJob(
    jobId: string,
    format: Format,
    printerName: Option<string>,
    fileUrl: Option<string>,
    dataBase64: Option<string>,
    html: Option<string>,
    waitMs: Option<nat>,
    copies: Option<nat>,
    paper: Option<Paper>)

  /** A parsed URL: the parts the agent looks at. `port` is the explicit port, if any. */
  datatype Url = Url(scheme: string, host: Option<string>, port: Option<nat>)

  /** A tuple origin, section 4 of RFC 6454. */
  datatype Origin = Origin(scheme: string, host: string, port: nat)

  type UrlParser = string -> Option<Url>
  type Base64Decoder = string -> Option<seq<bv8>>

  /** The library functions that both acceptance and the worker call. */
  datatype Codecs = Codecs(parseUrl: UrlParser, decodeBase64: Base64Decoder)

  function KnownDefaultPort(scheme: string): Option<nat> {
    if scheme == "http" || scheme == "ws" then Some(80)
    else if scheme == "https" || scheme == "wss" then Some(443)
    else if scheme == "ftp" then Some(21)
    else None
  }

  function PortOrKnownDefault(url: Url): Option<nat> {
    if url.port.Some? then url.port else KnownDefaultPort(url.scheme)
  }

  /** The tuple origin of a URL; `None` stands for an opaque origin, equal to no other. */
  function OriginOf(url: Url): Option<Origin> {
    if KnownDefaultPort(url.scheme).Some? && url.host.Some? then
      Some(Origin(url.scheme, url.host.value, PortOrKnownDefault(url).value))
    else
      None
  }

  predicate SameOrigin(a: Url, b: Url) {
    OriginOf(a).Some? && OriginOf(a) == OriginOf(b)
  }

  predicate IsHttp(url: Url) {
    url.scheme == "http" || url.scheme == "https"
  }

  datatype UrlError = InvalidFileUrl | UnsupportedFileUrlScheme

  /** An HTML page address must be an absolute HTTP(S) URL with a host. */
  function ValidateHtmlFileUrl(parse: UrlParser, value: string): Result<Url, UrlError> {
    match parse(value)
    case None => Err(InvalidFileUrl)
    case Some(url) =>
      if !IsHttp(url) then Err(UnsupportedFileUrlScheme)
      else if url.host.None? then Err(InvalidFileUrl)
      else Ok(url)
  }

  datatype JobValidationError =
    | MissingRawData
    | RawFileUrlNotAllowed
    | RawPaperNotAllowed
    | RawCopiesNotAllowed
    | MissingFileUrl
    | FileRawDataNotAllowed
    | InvalidRawData
    | FileTooLarge
    | MissingHtmlFileUrl
    | InvalidHtmlFileUrl
    | HtmlInlineNotAllowed
    | MissingRawHtml
    | RawHtmlFileUrlNotAllowed
    | HtmlDataBase64NotAllowed
    | NonHtmlHtmlNotAllowed
    | NonHtmlWaitNotAllowed
    | HtmlWaitOutOfRange

  type Validation = Result<Unit, JobValidationError>

  predicate IsFileFormat(format: Format) {
    format.Pdf? || format.Image? || format.Png? || format.Jpg? || format.Jpeg?
    || format.Docx? || format.Xlsx? || format.Pptx?
  }

  predicate NonEmpty(field: Option<string>) {
    field.Some? && field.value != ""
  }

  /** `max_file_size_mb.saturating_mul(1024 * 1024)` on 64-bit integers. */
  function MaxBytes(maxFileSizeMb: nat): nat {
    var bytes := maxFileSizeMb * 1024 * 1024;
    if bytes > U64_MAX then U64_MAX else bytes
  }

  /** Length of the UTF-8 encoding, which is what `str::len` counts. */
  function Utf8Length(s: string): nat {
    if s == "" then 0
    else
      var c := s[0] as int;
      (if c < 0x80 then 1 else if c < 0x800 then 2 else if c < 0x1_0000 then 3 else 4) + Utf8Length(s[1..])
  }

  function ValidateNonHtmlFields(job: PrintJob): Validation {
    if job.html.Some? then Err(NonHtmlHtmlNotAllowed)
    else if job.waitMs.Some? then Err(NonHtmlWaitNotAllowed)
    else Ok(Unit)
  }

  function ValidateHtmlWait(job: PrintJob): Validation {
    if job.waitMs.Some? && job.waitMs.value > MAX_HTML_WAIT_MS then Err(HtmlWaitOutOfRange) else Ok(Unit)
  }

  function ValidateRaw(decode: Base64Decoder, job: PrintJob, maxFileSizeMb: nat): Validation {
    if job.fileUrl.Some? then Err(RawFileUrlNotAllowed)
    else if job.paper.Some? then Err(RawPaperNotAllowed)
    else if job.copies.Some? then Err(RawCopiesNotAllowed)
    else if ValidateNonHtmlFields(job).Err? then ValidateNonHtmlFields(job)
    else if !NonEmpty(job.dataBase64) then Err(MissingRawData)
    else
      match decode(job.dataBase64.value)
      case None => Err(InvalidRawData)
      case Some(bytes) => if |bytes| > MaxBytes(maxFileSizeMb) then Err(FileTooLarge) else Ok(Unit)
  }

  function ValidateFileJob(job: PrintJob): Validation {
    if !NonEmpty(job.fileUrl) then Err(MissingFileUrl)
    else if job.dataBase64.Some? then Err(FileRawDataNotAllowed)
    else ValidateNonHtmlFields(job)
  }

  function ValidateHtmlFileJob(parse: UrlParser, job: PrintJob): Validation {
    if !NonEmpty(job.fileUrl) then Err(MissingHtmlFileUrl)
    else if ValidateHtmlFileUrl(parse, job.fileUrl.value).Err? then Err(InvalidHtmlFileUrl)
    else if job.html.Some? then Err(HtmlInlineNotAllowed)
    else if job.dataBase64.Some? then Err(HtmlDataBase64NotAllowed)
    else ValidateHtmlWait(job)
  }

  function ValidateRawHtml(job: PrintJob, maxFileSizeMb: nat): Validation {
    if job.fileUrl.Some? then Err(RawHtmlFileUrlNotAllowed)
    else if job.dataBase64.Some? then Err(HtmlDataBase64NotAllowed)
    else if job.html.None? || Trim(job.html.value) == "" then Err(MissingRawHtml)
    else if Utf8Length(job.html.value) > MaxBytes(maxFileSizeMb) then Err(FileTooLarge)
    else ValidateHtmlWait(job)
  }

  /** The gatekeeper: may this combination of fields enter the queue? */
  function ValidateForAcceptance(codecs: Codecs, job: PrintJob, maxFileSizeMb: nat): Validation {
    match job.format
    case Raw => ValidateRaw(codecs.decodeBase64, job, maxFileSizeMb)
    case Html => ValidateHtmlFileJob(codecs.parseUrl, job)
    case RawHtml => ValidateRawHtml(job, maxFileSizeMb)
    case _ => ValidateFileJob(job)
  }

  /** How much data a job brings along: decoded for a raw job, encoded for inline HTML. */
  function DocumentSize(codecs: Codecs, job: PrintJob): nat {
    if job.format.Raw? && job.dataBase64.Some? && codecs.decodeBase64(job.dataBase64.value).Some? then
      |codecs.decodeBase64(job.dataBase64.value).value|
    else if job.format.RawHtml? && job.html.Some? then Utf8Length(job.html.value)
    else 0
  }

  /**
   The job names exactly one document, in the way its format calls for, and nothing that its
   format has no use for.
   */
  predicate HasProperFields(codecs: Codecs, job: PrintJob) {
    && (job.fileUrl.Some? <==> job.format.Html? || IsFileFormat(job.format))
    && (job.dataBase64.Some? <==> job.format.Raw?)
    && (job.html.Some? <==> job.format.RawHtml?)
    && (job.fileUrl.Some? ==> job.fileUrl.value != "")
    && (job.format.Html? ==>
          var url := codecs.parseUrl(job.fileUrl.value);
          url.Some? && IsHttp(url.value) && url.value.host.Some?)
    && (job.format.Raw? ==> job.dataBase64.value != "" && codecs.decodeBase64(job.dataBase64.value).Some?)
    && (job.format.RawHtml? ==> Trim(job.html.value) != "")
    && (job.format.Raw? ==> job.paper.None? && job.copies.None?)
    && (job.waitMs.Some? ==> (job.format.Html? || job.format.RawHtml?) && job.waitMs.value <= MAX_HTML_WAIT_MS)
  }

  /** A job that is fit for the queue: it has the proper fields, and its data are within the limit. */
  predicate IsWellFormed(codecs: Codecs, job: PrintJob, maxFileSizeMb: nat) {
    HasProperFields(codecs, job) && DocumentSize(codecs, job) <= MaxBytes(maxFileSizeMb)
  }

  /** The early returns of the field checks accept exactly the well-formed jobs. */
  lemma AcceptanceIsExact(codecs: Codecs, job: PrintJob, maxFileSizeMb: nat)
    ensures ValidateForAcceptance(codecs, job, maxFileSizeMb).Ok? <==> IsWellFormed(codecs, job, maxFileSizeMb)
  {
    hide Trim, Utf8Length, MaxBytes;
    if job.format.Raw? {
    } else if job.format.Html? {
    } else if job.format.RawHtml? {
    } else {
      assert IsFileFormat(job.format);
    }
  }

  /**
   Data beyond the limit are complained about when nothing else is wrong with the job, but for the
   waiting time of inline HTML, which is looked at last.
   */
  lemma TooLargeExactly(codecs: Codecs, job: PrintJob, maxFileSizeMb: nat)
    ensures ValidateForAcceptance(codecs, job, maxFileSizeMb) == Err(FileTooLarge)
            <==> && DocumentSize(codecs, job) > MaxBytes(maxFileSizeMb)
                 && HasProperFields(codecs, if job.format.RawHtml? then job.(waitMs := None) else job)
  {
    hide Trim, Utf8Length, MaxBytes;
    if job.format.Raw? {
    } else if job.format.Html? {
    } else if job.format.RawHtml? {
    } else {
      assert IsFileFormat(job.format);
    }
  }
}
