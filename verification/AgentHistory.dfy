/**
 What the history store says after a run of the agent. The store is shared: test prints are
 recorded in it too, and the user may clear it, so the recordings of a run are only a part of
 what happened to the store.
 */
module AgentHistory {
  import opened Common
  import opened Protocol
  import opened Queue
  import opened Worker
  import Agent = PrintAgent
  import opened AgentDelivery
  import opened AgentTheorems
  import opened TaskHistory

  /** One recording per event, in the order of the events. */
  ghost predicate Mirrors(inputs: seq<Input>, events: seq<Event>) {
    && |inputs| == |events|
    && forall i :: 0 <= i < |inputs| ==> inputs[i].jobId == events[i].jobId && inputs[i].status == events[i].status
  }

  function InputStatuses(inputs: seq<Input>): seq<JobStatus> {
    Column(inputs, (i: Input) => i.status)
  }

  /** The recorded statuses are the statuses of the events. */
  lemma RecordedStatuses(inputs: seq<Input>, events: seq<Event>)
    requires Mirrors(inputs, events)
    ensures InputStatuses(inputs) == Statuses(events)
  {
    var statuses := InputStatuses(inputs);
    forall i | 0 <= i < |inputs| ensures statuses[i] == Statuses(events)[i] {
      assert inputs[i].status == events[i].status;
    }
  }

  lemma LastStatus(inputs: seq<Input>, k: nat)
    requires k < |inputs|
    ensures Summary(inputs).currentStatus == InputStatuses(inputs[k..])[|inputs| - k - 1]
  {
  }

  /**
   Whatever else was recorded, cleared or purged, for this id or for others: when the last inputs
   that count for a finished job are its events, the history shows it with a closed row, whose
   status is the last one broadcast, and which was finished when that status was recorded.
   */
  lemma FinishedJobsAreClosed(
    codecs: Codecs, states: seq<Agent.State>, steps: seq<Agent.Step>, n: nat, queued: QueuedJob,
    operations: seq<Operation>, k: nat)
    requires Agent.IsRun(codecs, states, steps) && n < |states|
    requires queued in states[n].finished
    requires k <= |InputsFor(queued.job.jobId, Log(operations))|
    requires Mirrors(InputsFor(queued.job.jobId, Log(operations))[k..], About({queued.job.jobId}, states[n].events))
    ensures var jobs := Run(operations).jobs;
            var id := queued.job.jobId;
            && id in jobs
            && IsTerminal(jobs[id].currentStatus)
            && StatusesOf(id, states[n]) != []
            && jobs[id].currentStatus == StatusesOf(id, states[n])[|StatusesOf(id, states[n])| - 1]
            && jobs[id].finishedAt == Some(jobs[id].updatedAt)
  {
    hide Agent.IsRun, Grammatical, Summary, Run, Log, EventsMatch, Mirrors, InputsFor, About;
    var id := queued.job.jobId;
    HistoriesAreGrammatical(codecs, states, steps, n, id);
    var inputs := InputsFor(id, Log(operations));
    RecordedStatuses(inputs[k..], About({id}, states[n].events));
    WholeHistoryClosesRow(inputs, k);
    SummaryEqualsLog(operations);
    LastStatus(inputs, k);
  }

  // ----- A store that others use as well -----

  /** Everything ever recorded for one job, whatever was recorded, cleared or purged in between. */
  function RecordingsOf(id: string, operations: seq<Operation>): seq<Input> {
    if operations == [] then []
    else
      var last := operations[|operations| - 1];
      RecordingsOf(id, operations[..|operations| - 1])
      + (if last.Record? && last.input.jobId == id then [last.input] else [])
  }

  /** A clear, or a purge that finds the job's latest source to be the removed one. */
  predicate Removes(id: string, before: seq<Operation>, operation: Operation) {
    var inputs := RecordingsOf(id, before);
    inputs != [] && (operation.ClearHistory? || (operation.Purge? && inputs[|inputs| - 1].source == REMOVED_SOURCE))
  }

  /** Once the job has been recorded, nothing removes it again. */
  ghost predicate Undisturbed(id: string, operations: seq<Operation>) {
    forall k :: 0 <= k < |operations| ==> !Removes(id, operations[..k], operations[k])
  }

  lemma UndisturbedBefore(id: string, before: seq<Operation>, last: Operation)
    requires Undisturbed(id, before + [last])
    ensures Undisturbed(id, before) && !Removes(id, before, last)
  {
    hide Removes;
    var all := before + [last];
    assert forall k :: 0 <= k < |before| ==> all[..k] == before[..k] && all[k] == before[k];
    assert all[..|before|] == before && all[|before|] == last;
  }

  /** The inputs that count are older ones, all or none of them, and then the given recordings. */
  ghost predicate EndsWithRecordings(inputs: seq<Input>, older: seq<Input>, recordings: seq<Input>) {
    inputs == recordings || inputs == older + recordings
  }

  lemma LastCounts(id: string, older: seq<Input>, log: seq<Input>, before: seq<Operation>, last: Operation)
    requires !Removes(id, before, last)
    requires EndsWithRecordings(InputsFor(id, log), older, RecordingsOf(id, before))
    ensures var next := if last.Record? then log + [last.input]
                        else if last.ClearHistory? then []
                        else Surviving(log, log);
            EndsWithRecordings(InputsFor(id, next), older, RecordingsOf(id, before + [last]))
  {
    hide InputsFor, Surviving;
    var inputs, recordings := InputsFor(id, log), RecordingsOf(id, before);
    assert (before + [last])[..|before|] == before;
    assert recordings + [] == recordings;
    if last.Record? {
      InputsForAppend(id, log, last.input);
      assert older + (recordings + [last.input]) == older + recordings + [last.input];
    } else if last.ClearHistory? {
      NothingRecorded(id);
    } else {
      SurvivingInputs(id, log, log);
      if recordings != [] {
        assert inputs[|inputs| - 1] == recordings[|recordings| - 1];
      }
    }
  }

  lemma NothingRecorded(id: string)
    ensures InputsFor(id, []) == []
  {
  }

  /**
   Then, after whatever happened earlier, its own recordings count, however many others came in
   between, behind all or none of the inputs that an earlier use of the same id left.
   */
  lemma {:induction false} UndisturbedRecordingsCount(id: string, earlier: seq<Operation>, operations: seq<Operation>)
    requires Undisturbed(id, operations)
    ensures EndsWithRecordings(
              InputsFor(id, Log(earlier + operations)), InputsFor(id, Log(earlier)), RecordingsOf(id, operations))
    decreases |operations|
  {
    hide Undisturbed, Removes, InputsFor, Surviving;
    var older := InputsFor(id, Log(earlier));
    if operations == [] {
      assert earlier + operations == earlier;
      assert older + [] == older;
    } else {
      var before, last := operations[..|operations| - 1], operations[|operations| - 1];
      assert operations == before + [last];
      UndisturbedBefore(id, before, last);
      UndisturbedRecordingsCount(id, earlier, before);
      LastCounts(id, older, Log(earlier + before), before, last);
      assert earlier + operations == (earlier + before) + [last];
      LogOfLonger(earlier + before, last);
    }
  }

  lemma LogOfLonger(before: seq<Operation>, last: Operation)
    ensures Log(before + [last])
            == if last.Record? then Log(before) + [last.input]
               else if last.ClearHistory? then []
               else Surviving(Log(before), Log(before))
  {
    assert (before + [last])[..|before|] == before;
  }

  // ----- What the agent itself records -----

  const WEB_SOCKET_SOURCE := "web_socket"

  /** The columns that an event does not determine. */
  datatype Extra = Extra(
    printerName: Option<string>,
    paperName: Option<string>,
    copies: Option<nat>,
    occurredAt: string)

  /** What the worker records together with broadcasting an event. */
  function RecordingOf(event: Event, extra: Extra): Input {
    Input(event.jobId, Some(event.requestId), event.batchId, WEB_SOCKET_SOURCE, event.status,
          if event.message == "" then None else Some(event.message),
          extra.printerName, extra.paperName, extra.copies, extra.occurredAt)
  }

  /**
   The uses of the store during the first `n` steps of a run: the worker's own recording with
   every event that it emits, and after each step whatever others do to the store.
   */
  function StoreUses(
    states: seq<Agent.State>, steps: seq<Agent.Step>, extras: seq<Extra>, others: seq<seq<Operation>>, n: nat)
    : seq<Operation>
    requires n <= |steps| < |states| && |extras| == |others| == |steps|
    requires forall i :: 0 <= i < |steps| ==> Agent.Enabled(states[i], steps[i])
  {
    if n == 0 then []
    else
      StoreUses(states, steps, extras, others, n - 1)
      + OwnUse(states[n - 1], steps[n - 1], extras[n - 1]) + others[n - 1]
  }

  function OwnUse(s: Agent.State, step: Agent.Step, extra: Extra): seq<Operation>
    requires Agent.Enabled(s, step)
  {
    if step.Emit? then [Operation.Record(RecordingOf(s.worker.script[0], extra))] else []
  }

  /** Test prints and other jobs are recorded under other ids. */
  predicate SparesId(id: string, operations: seq<Operation>) {
    forall operation :: operation in operations && operation.Record? ==> operation.input.jobId != id
  }

  predicate NeverClears(operations: seq<Operation>) {
    forall operation :: operation in operations ==> !operation.ClearHistory?
  }

  /** Others record under other ids, and do not clear the history once the job has an event. */
  ghost predicate OthersSpare(id: string, states: seq<Agent.State>, others: seq<seq<Operation>>, n: nat)
    requires n <= |others| < |states|
  {
    forall m :: 0 <= m < n ==>
      SparesId(id, others[m]) && (About({id}, states[m + 1].events) != [] ==> NeverClears(others[m]))
  }

  lemma {:induction false} RecordingsConcat(id: string, a: seq<Operation>, b: seq<Operation>)
    ensures RecordingsOf(id, a + b) == RecordingsOf(id, a) + RecordingsOf(id, b)
    decreases |b|
  {
    if b == [] {
      assert a + b == a;
      assert RecordingsOf(id, a) + [] == RecordingsOf(id, a);
    } else {
      assert (a + b)[..|a + b| - 1] == a + b[..|b| - 1];
      RecordingsConcat(id, a, b[..|b| - 1]);
    }
  }

  lemma {:induction false} SparedRecordings(id: string, operations: seq<Operation>)
    requires SparesId(id, operations)
    ensures RecordingsOf(id, operations) == []
  {
    if operations != [] {
      SparedRecordings(id, operations[..|operations| - 1]);
    }
  }

  lemma UndisturbedOneMore(id: string, before: seq<Operation>, last: Operation)
    requires Undisturbed(id, before) && !Removes(id, before, last)
    ensures Undisturbed(id, before + [last])
  {
    hide Removes;
    var all := before + [last];
    assert forall k :: 0 <= k < |before| ==> all[..k] == before[..k] && all[k] == before[k];
    assert all[..|before|] == before && all[|before|] == last;
  }

  /** Uses that spare the id, and do not clear what is there, disturb nothing. */
  lemma {:induction false} SparingDisturbsNothing(id: string, before: seq<Operation>, uses: seq<Operation>)
    requires Undisturbed(id, before) && SparesId(id, uses)
    requires RecordingsOf(id, before) != [] ==> NeverClears(uses)
    requires forall input :: input in RecordingsOf(id, before) ==> input.source == WEB_SOCKET_SOURCE
    ensures Undisturbed(id, before + uses)
    decreases |uses|
  {
    hide Undisturbed;
    if uses == [] {
      assert before + uses == before;
    } else {
      var first, last := uses[..|uses| - 1], uses[|uses| - 1];
      assert before + uses == (before + first) + [last];
      SparingDisturbsNothing(id, before, first);
      RecordingsConcat(id, before, first);
      SparedRecordings(id, first);
      assert RecordingsOf(id, before) + [] == RecordingsOf(id, before);
      UndisturbedOneMore(id, before + first, last);
    }
  }

  /** The recordings made during a run are its events, and nothing disturbs them. */
  ghost predicate KeepsRecord(id: string, uses: seq<Operation>, events: seq<Event>) {
    && Undisturbed(id, uses)
    && Mirrors(RecordingsOf(id, uses), About({id}, events))
    && (forall input :: input in RecordingsOf(id, uses) ==> input.source == WEB_SOCKET_SOURCE)
  }

  lemma OwnUseKeepsRecord(
    codecs: Codecs, id: string, uses: seq<Operation>, s: Agent.State, step: Agent.Step, extra: Extra)
    requires Agent.Enabled(s, step) && KeepsRecord(id, uses, s.events)
    ensures KeepsRecord(id, uses + OwnUse(s, step, extra), Agent.Do(codecs, s, step).events)
  {
    hide Undisturbed, About, RecordingsOf, Agent.DoSubmit, Agent.DoPop, Agent.DoNotifyOne, Agent.DoReply;
    if step.Emit? {
      var event := s.worker.script[0];
      var use := Operation.Record(RecordingOf(event, extra));
      AboutAppend({id}, s.events, event);
      RecordingsConcat(id, uses, [use]);
      OneRecording(id, use);
      UndisturbedOneMore(id, uses, use);
    } else {
      EventsOnlyByEmit(codecs, s, step);
      assert uses + [] == uses;
    }
  }

  lemma EventsOnlyByEmit(codecs: Codecs, s: Agent.State, step: Agent.Step)
    requires Agent.Enabled(s, step) && !step.Emit?
    ensures Agent.Do(codecs, s, step).events == s.events
  {
    hide Trace;
  }

  lemma OneRecording(id: string, use: Operation)
    requires use.Record?
    ensures RecordingsOf(id, [use]) == if use.input.jobId == id then [use.input] else []
  {
    assert [use][..0] == [];
  }

  lemma OtherUsesKeepRecord(id: string, uses: seq<Operation>, events: seq<Event>, others: seq<Operation>)
    requires KeepsRecord(id, uses, events)
    requires SparesId(id, others) && (About({id}, events) != [] ==> NeverClears(others))
    ensures KeepsRecord(id, uses + others, events)
  {
    hide Undisturbed, About, RecordingsOf, SparesId, NeverClears;
    SparingDisturbsNothing(id, uses, others);
    RecordingsConcat(id, uses, others);
    SparedRecordings(id, others);
    assert RecordingsOf(id, uses) + [] == RecordingsOf(id, uses);
  }

  /** In every run, and whatever others do, the recordings of a job mirror its events. */
  lemma {:induction false} RunKeepsRecord(
    codecs: Codecs, states: seq<Agent.State>, steps: seq<Agent.Step>, extras: seq<Extra>, others: seq<seq<Operation>>,
    n: nat, id: string)
    requires Agent.IsRun(codecs, states, steps) && n < |states| && |extras| == |others| == |steps|
    requires OthersSpare(id, states, others, n)
    ensures KeepsRecord(id, StoreUses(states, steps, extras, others, n), states[n].events)
    decreases n
  {
    hide Agent.Do, Agent.Enabled, KeepsRecord, OwnUse, SparesId, NeverClears;
    if n == 0 {
      NothingToRecord(id);
    } else {
      var uses := StoreUses(states, steps, extras, others, n - 1);
      var s, step := states[n - 1], steps[n - 1];
      RunKeepsRecord(codecs, states, steps, extras, others, n - 1, id);
      OwnUseKeepsRecord(codecs, id, uses, s, step, extras[n - 1]);
      OtherUsesKeepRecord(id, uses + OwnUse(s, step, extras[n - 1]), states[n].events, others[n - 1]);
    }
  }

  lemma NothingToRecord(id: string)
    ensures KeepsRecord(id, [], [])
  {
  }

  // ----- When the history shows a finished job -----

  /** Was the history cleared after the last event of this job so far? */
  function ClearedSince(
    id: string, states: seq<Agent.State>, steps: seq<Agent.Step>, others: seq<seq<Operation>>, n: nat): bool
    requires n <= |steps| < |states| && |others| == |steps|
    requires forall i :: 0 <= i < |steps| ==> Agent.Enabled(states[i], steps[i])
  {
    n > 0
    && ((ClearedSince(id, states, steps, others, n - 1) && !Mentions(id, states[n - 1], steps[n - 1]))
        || !NeverClears(others[n - 1]))
  }

  predicate Mentions(id: string, s: Agent.State, step: Agent.Step)
    requires Agent.Enabled(s, step)
  {
    step.Emit? && s.worker.script[0].jobId == id
  }

  /** Once a job has events, the inputs that count end with the last of them, or were all cleared. */
  ghost predicate Shows(inputs: seq<Input>, events: seq<Event>, cleared: bool) {
    events != [] ==>
      if cleared then inputs == []
      else
        && inputs != []
        && inputs[|inputs| - 1].status == events[|events| - 1].status
        && inputs[|inputs| - 1].source == WEB_SOCKET_SOURCE
  }

  lemma OwnUseShows(
    codecs: Codecs, id: string, before: seq<Operation>, s: Agent.State, step: Agent.Step, extra: Extra, cleared: bool)
    requires Agent.Enabled(s, step)
    requires Shows(InputsFor(id, Log(before)), About({id}, s.events), cleared)
    ensures Shows(InputsFor(id, Log(before + OwnUse(s, step, extra))),
                  About({id}, Agent.Do(codecs, s, step).events), cleared && !Mentions(id, s, step))
  {
    hide About, InputsFor, Agent.DoSubmit, Agent.DoPop, Agent.DoNotifyOne, Agent.DoReply;
    if step.Emit? {
      var event := s.worker.script[0];
      var use := Operation.Record(RecordingOf(event, extra));
      AboutAppend({id}, s.events, event);
      LogOfLonger(before, use);
      InputsForAppend(id, Log(before), use.input);
      assert About({id}, s.events) + [] == About({id}, s.events);
      assert InputsFor(id, Log(before)) + [] == InputsFor(id, Log(before));
    } else {
      EventsOnlyByEmit(codecs, s, step);
      assert before + [] == before;
    }
  }

  lemma OneUseShows(id: string, before: seq<Operation>, use: Operation, events: seq<Event>, cleared: bool)
    requires use.Record? ==> use.input.jobId != id
    requires Shows(InputsFor(id, Log(before)), events, cleared)
    ensures Shows(InputsFor(id, Log(before + [use])), events, cleared || use.ClearHistory?)
  {
    hide InputsFor, Surviving;
    var inputs := InputsFor(id, Log(before));
    LogOfLonger(before, use);
    if use.Record? {
      InputsForAppend(id, Log(before), use.input);
      assert inputs + [] == inputs;
    } else if use.ClearHistory? {
      NothingRecorded(id);
    } else {
      SurvivingInputs(id, Log(before), Log(before));
    }
  }

  lemma {:induction false} OtherUsesShow(
    id: string, before: seq<Operation>, uses: seq<Operation>, events: seq<Event>, cleared: bool)
    requires SparesId(id, uses)
    requires Shows(InputsFor(id, Log(before)), events, cleared)
    ensures Shows(InputsFor(id, Log(before + uses)), events, cleared || !NeverClears(uses))
    decreases |uses|
  {
    hide Shows, InputsFor, Log;
    if uses == [] {
      assert before + uses == before;
    } else {
      var first, last := uses[..|uses| - 1], uses[|uses| - 1];
      assert uses == first + [last];
      assert before + uses == (before + first) + [last];
      OtherUsesShow(id, before, first, events, cleared);
      OneUseShows(id, before + first, last, events, cleared || !NeverClears(first));
      assert NeverClears(uses) <==> NeverClears(first) && !last.ClearHistory?;
    }
  }

  /** Others record under other ids; beyond that they may do to the store what they like. */
  ghost predicate OthersRecordElsewhere(id: string, others: seq<seq<Operation>>, n: nat)
    requires n <= |others|
  {
    forall m :: 0 <= m < n ==> SparesId(id, others[m])
  }

  lemma {:induction false} RunShows(
    codecs: Codecs, states: seq<Agent.State>, steps: seq<Agent.Step>, earlier: seq<Operation>, extras: seq<Extra>,
    others: seq<seq<Operation>>, n: nat, id: string)
    requires Agent.IsRun(codecs, states, steps) && n < |states| && |extras| == |others| == |steps|
    requires OthersRecordElsewhere(id, others, n)
    ensures Shows(InputsFor(id, Log(earlier + StoreUses(states, steps, extras, others, n))),
                  About({id}, states[n].events), ClearedSince(id, states, steps, others, n))
    decreases n
  {
    hide Agent.Do, Agent.Enabled, Shows, OwnUse, Mentions, SparesId, NeverClears, Log, InputsFor, About;
    if n == 0 {
      NothingShown(id, InputsFor(id, Log(earlier + [])));
    } else {
      var uses := StoreUses(states, steps, extras, others, n - 1);
      var s, step := states[n - 1], steps[n - 1];
      var own, cleared := OwnUse(s, step, extras[n - 1]), ClearedSince(id, states, steps, others, n - 1);
      RunShows(codecs, states, steps, earlier, extras, others, n - 1, id);
      OwnUseShows(codecs, id, earlier + uses, s, step, extras[n - 1], cleared);
      OtherUsesShow(id, earlier + uses + own, others[n - 1], About({id}, states[n].events),
                    cleared && !Mentions(id, s, step));
      assert earlier + (uses + own + others[n - 1]) == earlier + uses + own + others[n - 1];
    }
  }

  lemma NothingShown(id: string, inputs: seq<Input>)
    ensures Shows(inputs, About({id}, []), false)
  {
  }

  /**
   A process that starts on a store with any past, in which the same id may have been used, and
   that shares it with test prints and with a user who clears it at will: at every moment the
   history shows a finished job exactly when it was not cleared since the job's last event, and
   then with a closed row.
   */
  lemma SharedStoreClosesFinishedJobs(
    codecs: Codecs, states: seq<Agent.State>, steps: seq<Agent.Step>, n: nat, queued: QueuedJob,
    earlier: seq<Operation>, extras: seq<Extra>, others: seq<seq<Operation>>)
    requires Agent.IsRun(codecs, states, steps) && n < |states| && |extras| == |others| == |steps|
    requires queued in states[n].finished
    requires OthersRecordElsewhere(queued.job.jobId, others, n)
    ensures var jobs := Run(earlier + StoreUses(states, steps, extras, others, n)).jobs;
            var id := queued.job.jobId;
            && (id in jobs <==> !ClearedSince(id, states, steps, others, n))
            && StatusesOf(id, states[n]) != []
            && (id in jobs ==>
                  && IsTerminal(jobs[id].currentStatus)
                  && jobs[id].currentStatus == StatusesOf(id, states[n])[|StatusesOf(id, states[n])| - 1]
                  && jobs[id].finishedAt == Some(jobs[id].updatedAt))
  {
    hide Run, Log, InputsFor, About, OthersRecordElsewhere, StoreUses, ClearedSince, Grammatical;
    hide Agent.Do, Agent.Enabled, Summary, EventsMatch;
    var id := queued.job.jobId;
    var operations := earlier + StoreUses(states, steps, extras, others, n);
    RunShows(codecs, states, steps, earlier, extras, others, n, id);
    HistoriesAreGrammatical(codecs, states, steps, n, id);
    GrammarConsequences(StatusesOf(id, states[n]));
    SummaryEqualsLog(operations);
    if InputsFor(id, Log(operations)) != [] {
      LastClosesRow(InputsFor(id, Log(operations)));
    }
  }
}
