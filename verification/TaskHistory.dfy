/**
 The task history: an append-only table of status events and a table with one summary row per
 job, which every recorded event inserts or updates. Each transaction is one step.

 The summary rows are compared with `Summary`, a definition over the list of everything that
 was recorded, which knows nothing of upserts.
 */
module TaskHistory {
  import opened Common
  import opened Worker

  const REMOVED_SOURCE := "remote"

  /** One call of `record_event`. */
  datatype Input = Input(
    jobId: string,
    requestId: Option<string>,
    batchId: Option<string>,
    source: string,
    status: JobStatus,
    message: Option<string>,
    printerName: Option<string>,
    paperName: Option<string>,
    copies: Option<nat>,
    occurredAt: string)

  datatype EventRow = EventRow(id: nat, jobId: string, status: JobStatus, message: Option<string>, occurredAt: string)

  datatype JobRow = JobRow(
    requestId: Option<string>,
    batchId: Option<string>,
    source: string,
    currentStatus: JobStatus,
    currentMessage: Option<string>,
    printerName: Option<string>,
    paperName: Option<string>,
    copies: Option<nat>,
    createdAt: string,
    updatedAt: string,
    finishedAt: Option<string>)

  /** The two tables; `nextId` is the AUTOINCREMENT counter, which never goes back. */
  datatype Tables = Tables(events: seq<EventRow>, jobs: map<string, JobRow>, nextId: nat)

  const EMPTY_TABLES := Tables([], map[], 1)

  function FinishedAt(input: Input): Option<string> {
    if IsTerminal(input.status) then Some(input.occurredAt) else None
  }

  function InsertedRow(input: Input): JobRow {
    JobRow(input.requestId, input.batchId, input.source, input.status, input.message, input.printerName,
           input.paperName, input.copies, input.occurredAt, input.occurredAt, FinishedAt(input))
  }

  /** The `ON CONFLICT(job_id) DO UPDATE` branch. */
  function UpdatedRow(row: JobRow, input: Input): JobRow {
    row.(requestId := Coalesce(input.requestId, row.requestId),
         batchId := Coalesce(input.batchId, row.batchId),
         source := input.source,
         currentStatus := input.status,
         currentMessage := input.message,
         printerName := Coalesce(input.printerName, row.printerName),
         paperName := Coalesce(input.paperName, row.paperName),
         copies := Coalesce(input.copies, row.copies),
         updatedAt := input.occurredAt,
         finishedAt := Coalesce(FinishedAt(input), row.finishedAt))
  }

  function RecordEvent(t: Tables, input: Input): Tables {
    var event := EventRow(t.nextId, input.jobId, input.status, input.message, input.occurredAt);
    var row := if input.jobId in t.jobs then UpdatedRow(t.jobs[input.jobId], input) else InsertedRow(input);
    Tables(t.events + [event], t.jobs[input.jobId := row], t.nextId + 1)
  }

  function Clear(t: Tables): Tables {
    t.(events := [], jobs := map[])
  }

  predicate IsRemoved(t: Tables, jobId: string) {
    jobId in t.jobs && t.jobs[jobId].source == REMOVED_SOURCE
  }

  function KeptEvents(t: Tables, events: seq<EventRow>): seq<EventRow> {
    if events == [] then []
    else
      var last := events[|events| - 1];
      KeptEvents(t, events[..|events| - 1]) + (if IsRemoved(t, last.jobId) then [] else [last])
  }

  /** Run once when the store is opened. */
  function PurgeRemovedSources(t: Tables): Tables {
    t.(events := KeptEvents(t, t.events),
       jobs := map id | id in t.jobs && !IsRemoved(t, id) :: t.jobs[id])
  }

  /** The store itself: each method is one transaction under the connection lock. */
  class TaskHistoryStore {
    var events: seq<EventRow>
    var jobs: map<string, JobRow>
    var nextId: nat

    function Value(): Tables
      reads this
    {
      Tables(events, jobs, nextId)
    }

    /** Opens the database file with whatever tables it holds. */
    constructor (t: Tables)
      ensures Value() == PurgeRemovedSources(t)
    {
      events, jobs, nextId := t.events, t.jobs, t.nextId;
      new;
      Purge();
    }

    method Record(input: Input)
      modifies this
      ensures Value() == RecordEvent(old(Value()), input)
    {
      events := events + [EventRow(nextId, input.jobId, input.status, input.message, input.occurredAt)];
      nextId := nextId + 1;
      if input.jobId in jobs {
        jobs := jobs[input.jobId := UpdatedRow(jobs[input.jobId], input)];
      } else {
        jobs := jobs[input.jobId := InsertedRow(input)];
      }
    }

    method ClearAll()
      modifies this`events, this`jobs
      ensures Value() == Clear(old(Value()))
    {
      events := [];
      jobs := map[];
    }

    method Purge()
      modifies this`events, this`jobs
      ensures Value() == PurgeRemovedSources(old(Value()))
    {
      var kept := [];
      for n := 0 to |events|
        invariant kept == KeptEvents(Value(), events[..n])
        invariant Value() == old(Value())
      {
        assert events[..n + 1][..n] == events[..n];
        if !IsRemoved(Value(), events[n].jobId) {
          kept := kept + [events[n]];
        }
      }
      assert events[..|events|] == events;
      var remaining := map id | id in jobs && !IsRemoved(Value(), id) :: jobs[id];
      events := kept;
      jobs := remaining;
    }
  }

  // ----- The reference definition -----

  datatype Operation = Record(input: Input) | ClearHistory | Purge

  function Apply(t: Tables, operation: Operation): Tables {
    match operation
    case Record(input) => RecordEvent(t, input)
    case ClearHistory => Clear(t)
    case Purge => PurgeRemovedSources(t)
  }

  function Run(operations: seq<Operation>): Tables {
    if operations == [] then EMPTY_TABLES
    else Apply(Run(operations[..|operations| - 1]), operations[|operations| - 1])
  }

  /** What was recorded for one job, in order. */
  function InputsFor(jobId: string, log: seq<Input>): (inputs: seq<Input>)
    ensures forall input :: input in inputs ==> input.jobId == jobId && input in log
  {
    if log == [] then []
    else
      var last := log[|log| - 1];
      InputsFor(jobId, log[..|log| - 1]) + (if last.jobId == jobId then [last] else [])
  }

  /** The jobs whose latest input has the removed source. */
  predicate LatestIsRemoved(jobId: string, log: seq<Input>) {
    var inputs := InputsFor(jobId, log);
    inputs != [] && inputs[|inputs| - 1].source == REMOVED_SOURCE
  }

  /** The inputs of `log` whose job is not removed according to `whole`. */
  function Surviving(whole: seq<Input>, log: seq<Input>): seq<Input> {
    if log == [] then []
    else
      var last := log[|log| - 1];
      Surviving(whole, log[..|log| - 1]) + (if LatestIsRemoved(last.jobId, whole) then [] else [last])
  }

  /** The inputs that count after a sequence of operations. */
  function Log(operations: seq<Operation>): seq<Input> {
    if operations == [] then []
    else
      var before := Log(operations[..|operations| - 1]);
      match operations[|operations| - 1]
      case Record(input) => before + [input]
      case ClearHistory => []
      case Purge => Surviving(before, before)
  }

  /** The last value that is present. */
  function LastPresent<T>(values: seq<Option<T>>): Option<T> {
    if values == [] then None
    else if values[|values| - 1].Some? then values[|values| - 1]
    else LastPresent(values[..|values| - 1])
  }

  function Column<T>(inputs: seq<Input>, field: Input -> T): (r: seq<T>)
    ensures |r| == |inputs|
    ensures forall i :: 0 <= i < |inputs| ==> r[i] == field(inputs[i])
  {
    seq(|inputs|, i requires 0 <= i < |inputs| => field(inputs[i]))
  }

  /**
   The summary of a job from its inputs: created at the first, described by the last, every
   optional column at its last present value, finished at the last terminal status.
   */
  function Summary(inputs: seq<Input>): JobRow
    requires inputs != []
  {
    var last := inputs[|inputs| - 1];
    JobRow(LastPresent(Column(inputs, (i: Input) => i.requestId)),
           LastPresent(Column(inputs, (i: Input) => i.batchId)),
           last.source,
           last.status,
           last.message,
           LastPresent(Column(inputs, (i: Input) => i.printerName)),
           LastPresent(Column(inputs, (i: Input) => i.paperName)),
           LastPresent(Column(inputs, (i: Input) => i.copies)),
           inputs[0].occurredAt,
           last.occurredAt,
           LastPresent(Column(inputs, FinishedAt)))
  }

  ghost predicate Describes(event: EventRow, input: Input) {
    event.jobId == input.jobId && event.status == input.status && event.message == input.message
    && event.occurredAt == input.occurredAt
  }

  /** The event table lists the log, with increasing ids below `bound`. */
  ghost predicate EventsMatch(events: seq<EventRow>, log: seq<Input>, bound: nat) {
    && |events| == |log|
    && (forall i :: 0 <= i < |log| ==> Describes(events[i], log[i]))
    && (forall i :: 0 <= i < |log| ==> events[i].id < bound)
    && (forall i, j :: 0 <= i < j < |log| ==> events[i].id < events[j].id)
  }

  /** The summary table has one row per job of the log: its summary. */
  ghost predicate RowsMatch(jobs: map<string, JobRow>, log: seq<Input>) {
    && (forall id :: id in jobs <==> InputsFor(id, log) != [])
    && (forall id :: id in jobs ==> jobs[id] == Summary(InputsFor(id, log)))
  }

  /** The tables say exactly what the log says. */
  ghost predicate Agrees(t: Tables, log: seq<Input>) {
    EventsMatch(t.events, log, t.nextId) && RowsMatch(t.jobs, log)
  }

  // ----- The summary equals the log -----

  lemma ColumnAppend<T>(inputs: seq<Input>, input: Input, field: Input -> T)
    ensures Column(inputs + [input], field) == Column(inputs, field) + [field(input)]
  {
  }

  lemma LastPresentAppend<T>(values: seq<Option<T>>, value: Option<T>)
    ensures LastPresent(values + [value]) == Coalesce(value, LastPresent(values))
  {
    assert (values + [value])[..|values|] == values;
  }

  lemma AppendedColumn<T>(inputs: seq<Input>, input: Input, field: Input -> Option<T>)
    ensures LastPresent(Column(inputs + [input], field)) == Coalesce(field(input), LastPresent(Column(inputs, field)))
  {
    ColumnAppend(inputs, input, field);
    LastPresentAppend(Column(inputs, field), field(input));
  }

  /** An upsert keeps the row equal to the summary. */
  lemma UpsertIsSummary(inputs: seq<Input>, input: Input)
    ensures Summary(inputs + [input])
            == if inputs == [] then InsertedRow(input) else UpdatedRow(Summary(inputs), input)
  {
    AppendedColumn(inputs, input, (i: Input) => i.requestId);
    AppendedColumn(inputs, input, (i: Input) => i.batchId);
    AppendedColumn(inputs, input, (i: Input) => i.printerName);
    AppendedColumn(inputs, input, (i: Input) => i.paperName);
    AppendedColumn(inputs, input, (i: Input) => i.copies);
    AppendedColumn(inputs, input, FinishedAt);
  }

  lemma InputsForAppend(jobId: string, log: seq<Input>, input: Input)
    ensures InputsFor(jobId, log + [input]) == InputsFor(jobId, log) + (if input.jobId == jobId then [input] else [])
  {
    assert (log + [input])[..|log|] == log;
  }

  lemma MatchAppend(events: seq<EventRow>, log: seq<Input>, event: EventRow, input: Input, bound: nat)
    requires EventsMatch(events, log, event.id) && Describes(event, input) && event.id < bound
    ensures EventsMatch(events + [event], log + [input], bound)
  {
    hide Describes;
  }

  /** Recording one input keeps every row the summary of its job's inputs. */
  lemma RecordKeepsRow(t: Tables, log: seq<Input>, input: Input, id: string)
    requires RowsMatch(t.jobs, log)
    ensures var jobs, inputs := RecordEvent(t, input).jobs, InputsFor(id, log + [input]);
            && (id in jobs <==> inputs != [])
            && (id in jobs ==> jobs[id] == Summary(inputs))
  {
    hide Summary, UpdatedRow, InsertedRow, InputsFor;
    InputsForAppend(id, log, input);
    if id == input.jobId {
      UpsertIsSummary(InputsFor(id, log), input);
    } else {
      assert InputsFor(id, log) + [] == InputsFor(id, log);
    }
  }

  lemma RecordAgrees(t: Tables, log: seq<Input>, input: Input)
    requires Agrees(t, log)
    ensures Agrees(RecordEvent(t, input), log + [input])
  {
    hide Summary, UpdatedRow, InsertedRow, EventsMatch, InputsFor;
    var after := RecordEvent(t, input);
    MatchAppend(t.events, log, after.events[|t.events|], input, after.nextId);
    forall id
      ensures id in after.jobs <==> InputsFor(id, log + [input]) != []
      ensures id in after.jobs ==> after.jobs[id] == Summary(InputsFor(id, log + [input]))
    {
      RecordKeepsRow(t, log, input, id);
    }
  }

  lemma RemovedRowsMatchLog(t: Tables, log: seq<Input>, id: string)
    requires Agrees(t, log)
    ensures IsRemoved(t, id) <==> LatestIsRemoved(id, log)
  {
    hide EventsMatch, LastPresent, Column, FinishedAt;
    if id in t.jobs {
      assert t.jobs[id] == Summary(InputsFor(id, log));
    }
  }

  /** Purging drops all inputs of the removed jobs and none of the others. */
  lemma {:induction false} SurvivingInputs(id: string, whole: seq<Input>, log: seq<Input>)
    ensures InputsFor(id, Surviving(whole, log)) == if LatestIsRemoved(id, whole) then [] else InputsFor(id, log)
  {
    if log != [] {
      var last := log[|log| - 1];
      var rest := log[..|log| - 1];
      SurvivingInputs(id, whole, rest);
      if LatestIsRemoved(last.jobId, whole) {
        assert Surviving(whole, log) == Surviving(whole, rest);
        assert InputsFor(id, rest) + [] == InputsFor(id, rest);
      } else {
        InputsForAppend(id, Surviving(whole, rest), last);
      }
    }
  }

  lemma {:induction false} KeptEventsMatch(
    t: Tables, whole: seq<Input>, events: seq<EventRow>, log: seq<Input>, bound: nat)
    requires forall id :: IsRemoved(t, id) <==> LatestIsRemoved(id, whole)
    requires EventsMatch(events, log, bound)
    ensures EventsMatch(KeptEvents(t, events), Surviving(whole, log), bound)
    decreases |log|
  {
    if log != [] {
      var event, input := events[|events| - 1], log[|log| - 1];
      assert Describes(event, input);
      KeptEventsMatch(t, whole, events[..|events| - 1], log[..|log| - 1], event.id);
      if !IsRemoved(t, event.jobId) {
        MatchAppend(KeptEvents(t, events[..|events| - 1]), Surviving(whole, log[..|log| - 1]), event, input, bound);
      }
    }
  }

  lemma PurgeAgrees(t: Tables, log: seq<Input>)
    requires Agrees(t, log)
    ensures Agrees(PurgeRemovedSources(t), Surviving(log, log))
  {
    hide Summary, EventsMatch;
    var after := PurgeRemovedSources(t);
    forall id ensures IsRemoved(t, id) <==> LatestIsRemoved(id, log) {
      RemovedRowsMatchLog(t, log, id);
    }
    KeptEventsMatch(t, log, t.events, log, t.nextId);
    forall id
      ensures id in after.jobs <==> InputsFor(id, Surviving(log, log)) != []
      ensures id in after.jobs ==> after.jobs[id] == Summary(InputsFor(id, Surviving(log, log)))
    {
      SurvivingInputs(id, log, log);
    }
  }

  /** After any sequence of recordings, clears and purges the summary rows equal the log. */
  lemma {:induction false} SummaryEqualsLog(operations: seq<Operation>)
    ensures Agrees(Run(operations), Log(operations))
  {
    if operations != [] {
      var before := operations[..|operations| - 1];
      SummaryEqualsLog(before);
      match operations[|operations| - 1]
      case Record(input) => RecordAgrees(Run(before), Log(before), input);
      case ClearHistory =>
      case Purge => PurgeAgrees(Run(before), Log(before));
    }
  }

  lemma {:induction false} InputsForIsMembership(jobId: string, log: seq<Input>)
    ensures InputsFor(jobId, log) != [] <==> exists input :: input in log && input.jobId == jobId
  {
    if log != [] {
      var last := log[|log| - 1];
      InputsForIsMembership(jobId, log[..|log| - 1]);
      if input :| input in log && input.jobId == jobId {
        assert input == last || input in log[..|log| - 1];
      }
    }
  }

  /** The two tables always speak of the same jobs, and purging removes exactly the removed source. */
  lemma TablesNameSameJobs(operations: seq<Operation>, id: string)
    ensures var t := Run(operations);
            && (id in t.jobs <==> exists e :: e in t.events && e.jobId == id)
            && (id in PurgeRemovedSources(t).jobs <==> id in t.jobs && t.jobs[id].source != REMOVED_SOURCE)
            && ((exists e :: e in PurgeRemovedSources(t).events && e.jobId == id)
                <==> id in t.jobs && t.jobs[id].source != REMOVED_SOURCE)
  {
    SummaryEqualsLog(operations);
    EventsNameJobs(Run(operations), Log(operations), id);
    PurgeAgrees(Run(operations), Log(operations));
    EventsNameJobs(PurgeRemovedSources(Run(operations)), Surviving(Log(operations), Log(operations)), id);
  }

  lemma EventsNameJobs(t: Tables, log: seq<Input>, id: string)
    requires Agrees(t, log)
    ensures id in t.jobs <==> exists e :: e in t.events && e.jobId == id
  {
    InputsForIsMembership(id, log);
    if id in t.jobs {
      var input :| input in log && input.jobId == id;
      var i :| 0 <= i < |log| && log[i] == input;
      assert Describes(t.events[i], log[i]);
      assert t.events[i] in t.events;
    }
    if e :| e in t.events && e.jobId == id {
      var i :| 0 <= i < |t.events| && t.events[i] == e;
      assert Describes(t.events[i], log[i]);
      assert log[i] in log;
    }
  }

  lemma LastClosesRow(inputs: seq<Input>)
    requires inputs != []
    ensures var row, last := Summary(inputs), inputs[|inputs| - 1];
            && row.currentStatus == last.status
            && (IsTerminal(last.status) ==> row.finishedAt == Some(row.updatedAt))
  {
    assert Column(inputs, FinishedAt)[|inputs| - 1] == FinishedAt(inputs[|inputs| - 1]);
  }

  /**
   The row of a job is closed at its last event when a whole history has been recorded last,
   whatever had been recorded for the same id before.
   */
  lemma WholeHistoryClosesRow(inputs: seq<Input>, k: nat)
    requires k <= |inputs| && Grammatical(Column(inputs[k..], (i: Input) => i.status))
    ensures k < |inputs| && IsTerminal(Summary(inputs).currentStatus)
    ensures Summary(inputs).finishedAt == Some(Summary(inputs).updatedAt)
  {
    var statuses := Column(inputs[k..], (i: Input) => i.status);
    GrammarConsequences(statuses);
    assert statuses[|statuses| - 1] == inputs[k..][|statuses| - 1].status == inputs[|inputs| - 1].status;
    LastClosesRow(inputs);
  }

  // ----- When a row is finished -----

  /** The row has a finishing time exactly when its status is terminal. */
  predicate IsConsistent(row: JobRow) {
    row.finishedAt.Some? <==> IsTerminal(row.currentStatus)
  }

  predicate AnyTerminal(inputs: seq<Input>) {
    exists input :: input in inputs && IsTerminal(input.status)
  }

  lemma {:induction false} FinishedIffTerminal(inputs: seq<Input>)
    ensures LastPresent(Column(inputs, FinishedAt)).Some? <==> AnyTerminal(inputs)
  {
    if inputs != [] {
      var before, last := inputs[..|inputs| - 1], inputs[|inputs| - 1];
      assert inputs == before + [last];
      FinishedIffTerminal(before);
      AppendedColumn(before, last, FinishedAt);
      assert AnyTerminal(inputs) <==> AnyTerminal(before) || IsTerminal(last.status);
    }
  }

  /** A row is consistent exactly when its last status is terminal or none ever was. */
  lemma ConsistentExactly(inputs: seq<Input>)
    requires inputs != []
    ensures IsConsistent(Summary(inputs)) <==> IsTerminal(inputs[|inputs| - 1].status) || !AnyTerminal(inputs)
  {
    FinishedIffTerminal(inputs);
    assert inputs[|inputs| - 1] in inputs;
  }

  /** Recording leaves a consistent row exactly when the status is terminal or the row was not finished before. */
  lemma RecordingIsConsistentExactly(t: Tables, input: Input)
    ensures IsConsistent(RecordEvent(t, input).jobs[input.jobId])
            <==> || IsTerminal(input.status)
                 || input.jobId !in t.jobs
                 || t.jobs[input.jobId].finishedAt.None?
  {
  }

  /** A job id that is used again after it had failed: the row says both queued and finished. */
  lemma ReusedIdIsInconsistent(first: Input, failed: Input, again: Input)
    requires first.jobId == failed.jobId == again.jobId
    requires first.status == Queued && failed.status == Failed && again.status == Queued
    ensures var operations := [Operation.Record(first), Operation.Record(failed), Operation.Record(again)];
            var jobs := Run(operations).jobs;
            && first.jobId in jobs
            && jobs[first.jobId].currentStatus == Queued
            && jobs[first.jobId].finishedAt == Some(failed.occurredAt)
            && !IsConsistent(jobs[first.jobId])
  {
    var operations := [Operation.Record(first), Operation.Record(failed), Operation.Record(again)];
    assert operations[..2] == [Operation.Record(first), Operation.Record(failed)];
    assert operations[..2][..1] == [Operation.Record(first)];
    assert operations[..2][..1][..0] == [];
    assert Run(operations[..2][..1]) == RecordEvent(EMPTY_TABLES, first);
    assert Run(operations[..2]) == RecordEvent(Run(operations[..2][..1]), failed);
  }

  /** In one history of a job, a terminal status is followed by terminal ones only. */
  lemma {:induction false} TerminalStaysTerminal(place: Place, statuses: seq<JobStatus>, i: nat, j: nat)
    requires var end := Reached(place, statuses); end.HandedOver? || end.Closed?
    requires i < j < |statuses| && IsTerminal(statuses[i])
    ensures IsTerminal(statuses[j])
    decreases |statuses|
  {
    var next := After(place, statuses[0]);
    if next.Stuck? {
      DeadEnds(next, statuses[1..]);
      assert false;
    } else if i > 0 {
      TerminalStaysTerminal(next, statuses[1..], i - 1, j - 1);
    } else if next.Closed? {
      DeadEnds(next, statuses[1..]);
      assert false;
    } else {
      ContinuationCounts(next, statuses[1..]);
      assert statuses[1..][j - 1] == statuses[|statuses| - 1];
    }
  }

  /** So at every moment of a job's one history its row is consistent. */
  lemma OneHistoryIsConsistent(inputs: seq<Input>, n: nat)
    requires Grammatical(Column(inputs, (i: Input) => i.status)) && 0 < n <= |inputs|
    ensures IsConsistent(Summary(inputs[..n]))
  {
    hide Grammatical, Summary;
    var statuses := Column(inputs, (i: Input) => i.status);
    ConsistentExactly(inputs[..n]);
    if input :| input in inputs[..n] && IsTerminal(input.status) {
      var i :| 0 <= i < n && inputs[i] == input;
      assert statuses[i] == input.status;
      if i < n - 1 {
        GrammarEnds(statuses);
        TerminalStaysTerminal(Fresh, statuses, i, n - 1);
      }
      assert statuses[n - 1] == inputs[n - 1].status;
    }
  }

  lemma GrammarEnds(statuses: seq<JobStatus>)
    requires Grammatical(statuses)
    ensures var end := Reached(Fresh, statuses); end.HandedOver? || end.Closed?
  {
  }
}
