/**
 Handing one job to CUPS: the checks before `lp`, the check after it, and the cancellation
 that undoes a submission to a printer that has meanwhile gone offline.

 What the CUPS tools answer is the datatype `Cups`. A failed `lp` creates no spool job, and a
 successful `cancel` removes the job it names; the model takes both from CUPS.
 */
module CupsSubmission {
  import opened Common
  import opened Protocol
  import opened Queue
  import opened Worker
  import opened Text

  datatype Availability = Available | Unavailable

  datatype Cups = Cups(
    printerExists: bool,
    before: Availability,
    prepared: bool,        // papers could be listed, or the raw temporary file written
    lpSucceeds: bool,
    jobId: string,         // the spool job that a successful `lp` creates
    output: string,        // what `lp` prints
    after: Availability,
    cancelSucceeds: bool)

  datatype PrintError = PrinterNotFound | PrinterOffline | CommandFailed

  datatype CupsResult = Spooled(systemJobId: Option<string>) | Rejected(error: PrintError)

  /** The text after the first occurrence of `needle`. */
  function TextAfter(s: string, needle: string): Option<string> {
    if StartsWith(s, needle) then Some(s[|needle|..])
    else if s == "" then None
    else TextAfter(s[1..], needle)
  }

  /** The job id in "request id is Printer-42 (1 file(s))". */
  function ParseLpJobId(output: string): Option<string> {
    match TextAfter(output, "request id is ")
    case None => None
    case Some(request) => if Words(request) == [] then None else Some(TrimEndChar(Words(request)[0], '.'))
  }

  /** The id that `lp` announces is the id that gets parsed. */
  lemma AnnouncedIdIsParsed(id: string, tail: string)
    requires id != "" && forall i :: 0 <= i < |id| ==> !IsWhitespace(id[i])
    requires id[|id| - 1] != '.'
    requires tail == "" || IsWhitespace(tail[0])
    ensures ParseLpJobId("request id is " + id + tail) == Some(id)
  {
    var output := "request id is " + id + tail;
    assert output[14..] == id + tail;
    FirstWord(id, tail);
    assert (id + tail)[0] == id[0];
    assert (id + tail)[..|id|] == id;
  }

  /** `lp` names the job it created, or no job at all. */
  predicate ReportsOwnJob(cups: Cups) {
    ParseLpJobId(cups.output).Some? ==> ParseLpJobId(cups.output).value == cups.jobId
  }

  /** Did `lp` run, succeed, and was its job then successfully cancelled? */
  predicate LpRuns(cups: Cups) {
    cups.printerExists && cups.before.Available? && cups.prepared
  }

  predicate CancelledAfterwards(cups: Cups) {
    cups.after.Unavailable? && ParseLpJobId(cups.output).Some? && cups.cancelSucceeds
  }

  /** The spooler: the jobs that will be, or are being, printed. */
  class Spooler {
    var live: set<string>

    constructor (live: set<string>)
      ensures this.live == live
    {
      this.live := live;
    }

    method Lp(cups: Cups) returns (ok: bool)
      modifies this
      ensures ok == cups.lpSucceeds
      ensures live == if ok then old(live) + {cups.jobId} else old(live)
    {
      ok := cups.lpSucceeds;
      if ok {
        live := live + {cups.jobId};
      }
    }

    method Cancel(cups: Cups, jobId: string) returns (ok: bool)
      modifies this
      ensures ok == cups.cancelSucceeds
      ensures live == if ok then old(live) - {jobId} else old(live)
    {
      ok := cups.cancelSucceeds;
      if ok {
        live := live - {jobId};
      }
    }

    method FinalizeCupsSubmission(cups: Cups, systemJobId: Option<string>) returns (r: CupsResult)
      modifies this
      ensures r.Spooled? <==> !(cups.after.Unavailable? && systemJobId.Some? && cups.cancelSucceeds)
      ensures r.Spooled? ==> r.systemJobId == systemJobId && live == old(live)
      ensures r.Rejected? ==> r.error == PrinterOffline && live == old(live) - {systemJobId.value}
    {
      if cups.after.Available? {
        return Spooled(systemJobId);
      }
      if systemJobId.None? {
        return Spooled(systemJobId);
      }
      var cancelled := Cancel(cups, systemJobId.value);
      return if cancelled then Rejected(PrinterOffline) else Spooled(systemJobId);
    }

    /**
     The whole submission, for documents and for raw data alike: accepted exactly when `lp` ran
     and succeeded and its job was not cancelled afterwards, and leaving a live job exactly then.
     */
    method Print(cups: Cups) returns (r: CupsResult)
      requires cups.jobId !in live && ReportsOwnJob(cups)
      modifies this
      ensures r.Spooled? <==> LpRuns(cups) && cups.lpSucceeds && !CancelledAfterwards(cups)
      ensures live == if r.Spooled? then old(live) + {cups.jobId} else old(live)
      ensures (r, live) == Attempt(cups, old(live))
    {
      if !cups.printerExists {
        return Rejected(PrinterNotFound);
      }
      if cups.before.Unavailable? {
        return Rejected(PrinterOffline);
      }
      if !cups.prepared {
        return Rejected(CommandFailed);
      }
      var ok := Lp(cups);
      if !ok {
        return Rejected(CommandFailed);
      }
      r := FinalizeCupsSubmission(cups, ParseLpJobId(cups.output));
    }
  }

  /** The same submission as a value: its result and the live jobs afterwards. */
  function Attempt(cups: Cups, live: set<string>): (CupsResult, set<string>) {
    if !cups.printerExists then (Rejected(PrinterNotFound), live)
    else if cups.before.Unavailable? then (Rejected(PrinterOffline), live)
    else if !cups.prepared || !cups.lpSucceeds then (Rejected(CommandFailed), live)
    else
      var id := ParseLpJobId(cups.output);
      var spooled := live + {cups.jobId};
      if cups.after.Unavailable? && id.Some? && cups.cancelSucceeds then
        (Rejected(PrinterOffline), spooled - {id.value})
      else (Spooled(id), spooled)
  }

  /** Why a submission is refused: an unknown printer, one that is or went offline, or a failed command. */
  lemma RefusedBecause(cups: Cups, live: set<string>)
    ensures var r := Attempt(cups, live).0;
            && (r == Rejected(PrinterNotFound) <==> !cups.printerExists)
            && (r == Rejected(PrinterOffline)
                <==> cups.printerExists
                     && (cups.before.Unavailable?
                         || (cups.prepared && cups.lpSucceeds && CancelledAfterwards(cups))))
            && (r == Rejected(CommandFailed)
                <==> cups.printerExists && cups.before.Available? && !(cups.prepared && cups.lpSucceeds))
            && (r.Spooled? ==> r.systemJobId == ParseLpJobId(cups.output))
  {
    hide ParseLpJobId;
  }

  /** What the worker sees of a CUPS submission. */
  function BackendAnswer(cups: Cups, live: set<string>): Result<Submission, string> {
    match Attempt(cups, live).0
    case Spooled(id) => Ok(Submission(id.Some?))
    case Rejected(_) => Err("print failed")
  }

  /** The live spool jobs after the worker has processed one job. */
  function LiveAfter(
    codecs: Codecs, queued: QueuedJob, config: Config, world: World, cups: Cups, live: set<string>): set<string>
  {
    if Submissions(JobCourse(codecs, queued, config, world).calls) > 0 then Attempt(cups, live).1 else live
  }

  /**
   The reported status tells the truth about the spooler: Submitted is announced exactly when
   the backend was asked, `lp` succeeded and the job was not cancelled again; then the spool job
   is live, and otherwise the spooler is as it was before.
   */
  lemma StatusIsTruthful(codecs: Codecs, queued: QueuedJob, config: Config, world: World, cups: Cups, live: set<string>)
    requires cups.jobId !in live && ReportsOwnJob(cups)
    requires world.backend == BackendAnswer(cups, live)
    ensures var course := JobCourse(codecs, queued, config, world);
            var statuses := Statuses(Trace(codecs, queued, config, world));
            var after := LiveAfter(codecs, queued, config, world, cups, live);
            && (Submitted in statuses
                <==> Submissions(course.calls) == 1 && LpRuns(cups) && cups.lpSucceeds && !CancelledAfterwards(cups))
            && (Submitted in statuses ==> after == live + {cups.jobId})
            && (Submitted !in statuses ==> statuses[|statuses| - 1] == Failed && after == live)
  {
    hide JobCourse, Trace, ParseLpJobId, Submissions;
    SubmissionIsTruthful(codecs, queued, config, world);
    FailureIsLast(codecs, queued, config, world);
  }

  lemma FailureIsLast(codecs: Codecs, queued: QueuedJob, config: Config, world: World)
    ensures var statuses := Statuses(Trace(codecs, queued, config, world));
            |statuses| >= 2 && (Submitted !in statuses ==> statuses[|statuses| - 1] == Failed)
  {
    hide InnerCourse;
    SubmissionIsTruthful(codecs, queued, config, world);
    var notes := JobCourse(codecs, queued, config, world).notes;
    var statuses := Statuses(Trace(codecs, queued, config, world));
    assert statuses[|notes| - 1] == notes[|notes| - 1].status;
    TraceIsGrammatical(codecs, queued, config, world);
    GrammarConsequences(statuses);
  }
}

