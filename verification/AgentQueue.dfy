/** Whole-run facts about the queue: conservation, FIFO order, batches, origins and wake-ups. */
module AgentQueue {
  import opened Common
  import opened Protocol
  import opened Queue
  import opened Server
  import opened Worker
  import opened PrintAgent

  ghost predicate Distinct(jobs: seq<QueuedJob>) {
    forall i, j :: 0 <= i < j < |jobs| ==> jobs[i].job.jobId != jobs[j].job.jobId
  }

  /** Between two jobs of one batch there is no job of another batch. */
  ghost predicate BatchesContiguous(jobs: seq<QueuedJob>) {
    forall i, j, k :: 0 <= i < j < k < |jobs| && jobs[i].batchId.Some? && jobs[i].batchId == jobs[k].batchId
                      ==> jobs[j].batchId == jobs[i].batchId
  }

  /** Accepted jobs are the finished ones, then the one in flight, then the pending ones. */
  ghost predicate Conservation(s: State) {
    && s.accepted == s.finished + InFlight(s.worker) + s.queue.pending
    && s.queue.seenJobIds == IdsOf(s.accepted)
    && Distinct(s.accepted)
    && (forall q :: q in s.accepted && q.batchId.Some? ==> q.batchId.value in s.queue.seenBatchIds)
    && BatchesContiguous(s.accepted)
  }

  /** The ids bound to a connection are exactly the ids it submitted. */
  ghost predicate Ownership(s: State) {
    && s.submitter.Keys == IdsOf(s.accepted)
    && (forall id :: id in s.submitter ==> s.submitter[id] in s.connections)
    && (forall c, id :: c in s.connections ==>
          (id in Bound(s.connections[c]) <==> id in s.submitter && s.submitter[id] == c))
  }

  /** Every accepted job passed validation and obeys the origin rule of its own connection. */
  ghost predicate Provenance(codecs: Codecs, s: State) {
    forall q :: q in s.accepted ==>
      && Admitted(codecs, q.job)
      && q.job.jobId in s.submitter
      && s.submitter[q.job.jobId] in s.connections
      && OriginDiscipline(codecs.parseUrl, s.connections[s.submitter[q.job.jobId]].origin, q)
  }

  ghost predicate ProducerBetweenPushAndNotify(s: State) {
    exists c :: c in s.connections && s.connections[c].phase.Pushed?
  }

  /** A worker that is about to sleep, or sleeps, over a non-empty queue will be woken. */
  ghost predicate NoLostWakeUp(s: State) {
    && (s.worker.Exited? ==> s.cancelled)
    && (s.worker.Parked? ==> !s.permit)
    && ((s.worker.Parked? || s.worker.FoundNothing?) && s.queue.pending != [] ==>
          s.permit || ProducerBetweenPushAndNotify(s))
  }

  ghost predicate Invariant(codecs: Codecs, s: State) {
    History(codecs, s) && NoLostWakeUp(s)
  }

  lemma AppendedBatch(codecs: Codecs, origin: Option<string>, request: Request)
    requires HtmlLocalOrigin(codecs.parseUrl, JobsOf(request), origin).Ok?
    ensures var added := NewEntries(codecs, request, origin);
            && (forall i :: 0 <= i < |added| ==>
                  && added[i].job == JobsOf(request)[i]
                  && added[i].batchId == (if request.PrintBatch? then Some(request.batchId) else None))
            && IdsOf(added) == JobIds(JobsOf(request))
            && (set id | id in IdSeq(JobsOf(request))) == JobIds(JobsOf(request))
  {
    var jobs := JobsOf(request);
    var added := NewEntries(codecs, request, origin);
    var batch := if request.PrintBatch? then Some(request.batchId) else None;
    forall i | 0 <= i < |added| ensures added[i].job == jobs[i] && added[i].batchId == batch {}
    forall id ensures id in IdsOf(added) <==> id in JobIds(jobs) {
      if id in JobIds(jobs) {
        var i :| 0 <= i < |jobs| && jobs[i].jobId == id;
        assert added[i] in added;
      }
    }
    forall id ensures id in IdSeq(jobs) <==> id in JobIds(jobs) {
      if id in JobIds(jobs) {
        var i :| 0 <= i < |jobs| && jobs[i].jobId == id;
        assert IdSeq(jobs)[i] == id;
      }
    }
  }

  lemma IdsOfConcat(a: seq<QueuedJob>, b: seq<QueuedJob>)
    ensures IdsOf(a + b) == IdsOf(a) + IdsOf(b)
  {
    forall id ensures id in IdsOf(a + b) <==> id in IdsOf(a) + IdsOf(b) {
      if id in IdsOf(a) {
        var q :| q in a && q.job.jobId == id;
        assert q in a + b;
      }
      if id in IdsOf(b) {
        var q :| q in b && q.job.jobId == id;
        assert q in a + b;
      }
    }
  }

  /** `t` is `s` after connection `c` pushed the entries `added`, all of one batch or of none. */
  ghost predicate Appended(codecs: Codecs, s: State, t: State, c: nat, added: seq<QueuedJob>, batch: Option<string>) {
    && c in s.connections && s.connections[c].phase.AtSelect? && c in t.connections
    && t.connections == s.connections[c := s.connections[c].(phase := t.connections[c].phase)]
    && t.connections[c].phase.Pushed? && t.connections[c].phase.response.JobQueued?
    && PhaseIds(t.connections[c].phase) == IdsOf(added)
    && t.queue == Contents(s.queue.pending + added,
                           s.queue.seenJobIds + IdsOf(added),
                           s.queue.seenBatchIds + (if batch.Some? then {batch.value} else {}))
    && IdsOf(added) * s.queue.seenJobIds == {}
    && (batch.Some? ==> batch.value !in s.queue.seenBatchIds)
    && Distinct(added)
    && (forall q :: q in added ==>
          && q.batchId == batch
          && Admitted(codecs, q.job)
          && OriginDiscipline(codecs.parseUrl, s.connections[c].origin, q))
    && t == s.(queue := t.queue, connections := t.connections, accepted := s.accepted + added,
               submitter := s.submitter + (map id | id in IdsOf(added) :: c))
  }

  /** `t` is `s` except that connection `c` has told its client something. */
  ghost predicate OnlyAnswered(s: State, t: State, c: nat) {
    && c in s.connections
    && exists response :: t == s.(connections := s.connections[c := s.connections[c].(
         sent := s.connections[c].sent + [Answered(response, [])])])
  }

  /** What the queue looks like after an accepted message, without naming the message. */
  lemma AcceptedEntries(codecs: Codecs, limits: Limits, origin: Option<string>, request: Request, q: Contents)
    returns (added: seq<QueuedJob>, batch: Option<string>)
    requires Handle(codecs, limits, origin, request, q).response.JobQueued?
    ensures var o := Handle(codecs, limits, origin, request, q);
            && o.queue == Contents(q.pending + added, q.seenJobIds + IdsOf(added),
                                   q.seenBatchIds + (if batch.Some? then {batch.value} else {}))
            && (set id | id in o.acceptedIds) == IdsOf(added)
    ensures IdsOf(added) * q.seenJobIds == {} && Distinct(added)
    ensures batch.Some? ==> batch.value !in q.seenBatchIds
    ensures forall e :: e in added ==>
              e.batchId == batch && Admitted(codecs, e.job) && OriginDiscipline(codecs.parseUrl, origin, e)
  {
    HandleIsAllOrNothing(codecs, limits, origin, request, q);
    AppendedBatch(codecs, origin, request);
    added := NewEntries(codecs, request, origin);
    batch := if request.PrintBatch? then Some(request.batchId) else None;
    forall e | e in added
      ensures e.batchId == batch && Admitted(codecs, e.job) && OriginDiscipline(codecs.parseUrl, origin, e)
    {
      var i :| 0 <= i < |added| && added[i] == e;
      assert JobsOf(request)[i] in JobsOf(request);
      NewEntriesAreDisciplined(codecs, origin, request, i);
    }
  }

  /** A submission is refused without effect, or appends its whole batch. */
  lemma SubmitEffect(codecs: Codecs, s: State, c: nat, request: Request, limits: Limits)
    returns (added: seq<QueuedJob>, batch: Option<string>)
    requires In(s, c, AtSelect)
    ensures var t := DoSubmit(codecs, s, c, request, limits);
            OnlyAnswered(s, t, c) || Appended(codecs, s, t, c, added, batch)
  {
    var origin := s.connections[c].origin;
    var o := Handle(codecs, limits, origin, request, s.queue);
    added, batch := [], None;
    if o.response.JobQueued? {
      added, batch := AcceptedEntries(codecs, limits, origin, request, s.queue);
      PushedState(codecs, s, c, request, limits, o, added, batch);
    } else {
      HandleIsAllOrNothing(codecs, limits, origin, request, s.queue);
      assert DoSubmit(codecs, s, c, request, limits) == s.(connections := s.connections[c := s.connections[c].(
        sent := s.connections[c].sent + [Answered(o.response, [])])]);
    }
  }

  lemma PushedState(codecs: Codecs, s: State, c: nat, request: Request, limits: Limits, o: Outcome,
                    added: seq<QueuedJob>, batch: Option<string>)
    requires In(s, c, AtSelect)
    requires o == Handle(codecs, limits, s.connections[c].origin, request, s.queue) && o.response.JobQueued?
    requires o.queue == Contents(s.queue.pending + added, s.queue.seenJobIds + IdsOf(added),
                                 s.queue.seenBatchIds + (if batch.Some? then {batch.value} else {}))
    requires (set id | id in o.acceptedIds) == IdsOf(added)
    requires IdsOf(added) * s.queue.seenJobIds == {} && Distinct(added)
    requires batch.Some? ==> batch.value !in s.queue.seenBatchIds
    requires forall e :: e in added ==>
              && e.batchId == batch
              && Admitted(codecs, e.job)
              && OriginDiscipline(codecs.parseUrl, s.connections[c].origin, e)
    ensures Appended(codecs, s, DoSubmit(codecs, s, c, request, limits), c, added, batch)
  {
    hide Handle, OriginDiscipline, Admitted, Distinct;
    var t := DoSubmit(codecs, s, c, request, limits);
    var phase := Pushed(o.response, o.acceptedIds);
    assert o.queue.pending[|s.queue.pending|..] == added;
    assert t.connections[c].phase == phase;
    assert PhaseIds(phase) == (set id | id in o.acceptedIds);
    assert forall id :: id in o.acceptedIds <==> id in (set i | i in o.acceptedIds);
    assert (map id | id in o.acceptedIds :: c) == (map id | id in IdsOf(added) :: c);
  }

  lemma AppendKeepsConservation(
    codecs: Codecs, s: State, t: State, c: nat, added: seq<QueuedJob>, batch: Option<string>)
    requires Appended(codecs, s, t, c, added, batch)
    requires Conservation(s)
    ensures Conservation(t)
  {
    hide OriginDiscipline, Admitted;
    IdsOfConcat(s.accepted, added);
    AppendKeepsDistinct(s.accepted, added);
    AppendKeepsContiguous(s.accepted, added, batch);
    assert t.accepted == t.finished + InFlight(t.worker) + t.queue.pending;
  }

  lemma AppendKeepsOwnership(codecs: Codecs, s: State, t: State, c: nat, added: seq<QueuedJob>, batch: Option<string>)
    requires Appended(codecs, s, t, c, added, batch)
    requires Conservation(s) && Ownership(s)
    ensures Ownership(t)
  {
    hide OriginDiscipline, Admitted, Distinct, BatchesContiguous, Bound, PhaseIds, IdsOf;
    IdsOfConcat(s.accepted, added);
    assert t.submitter.Keys == s.submitter.Keys + IdsOf(added);
    forall id | id in IdsOf(added) ensures id !in s.submitter {
      assert id !in IdsOf(added) * s.queue.seenJobIds;
    }
    forall d, id | d in t.connections
      ensures id in Bound(t.connections[d]) <==> id in t.submitter && t.submitter[id] == d
    {
      BoundAfterPush(codecs, s, t, c, added, batch, d, id);
    }
  }

  lemma BoundAfterPush(codecs: Codecs, s: State, t: State, c: nat, added: seq<QueuedJob>, batch: Option<string>,
                       d: nat, id: string)
    requires Appended(codecs, s, t, c, added, batch) && d in s.connections
    ensures id in Bound(t.connections[d]) <==> id in Bound(s.connections[d]) || (d == c && id in IdsOf(added))
  {
  }

  lemma AppendKeepsProvenance(codecs: Codecs, s: State, t: State, c: nat, added: seq<QueuedJob>, batch: Option<string>)
    requires Appended(codecs, s, t, c, added, batch)
    requires Conservation(s) && Ownership(s) && Provenance(codecs, s)
    ensures Provenance(codecs, t)
  {
    hide OriginDiscipline, Admitted;
    forall q | q in t.accepted
      ensures Admitted(codecs, q.job) && q.job.jobId in t.submitter && t.submitter[q.job.jobId] in t.connections
      ensures OriginDiscipline(codecs.parseUrl, t.connections[t.submitter[q.job.jobId]].origin, q)
    {
      if q in added {
        assert q.job.jobId in IdsOf(added);
      } else {
        assert q.job.jobId in IdsOf(s.accepted);
        assert q.job.jobId !in IdsOf(added) * s.queue.seenJobIds;
      }
    }
  }

  lemma AppendKeepsDistinct(jobs: seq<QueuedJob>, added: seq<QueuedJob>)
    requires Distinct(jobs) && Distinct(added)
    requires IdsOf(added) * IdsOf(jobs) == {}
    ensures Distinct(jobs + added)
  {
    forall i, j | 0 <= i < j < |jobs + added| ensures (jobs + added)[i].job.jobId != (jobs + added)[j].job.jobId {
      if i < |jobs| <= j {
        assert jobs[i] in jobs && added[j - |jobs|] in added;
        assert jobs[i].job.jobId in IdsOf(jobs) && added[j - |jobs|].job.jobId in IdsOf(added);
        assert added[j - |jobs|].job.jobId !in IdsOf(added) * IdsOf(jobs);
      }
    }
  }

  lemma AppendKeepsContiguous(jobs: seq<QueuedJob>, added: seq<QueuedJob>, batchId: Option<string>)
    requires BatchesContiguous(jobs)
    requires forall i :: 0 <= i < |added| ==> added[i].batchId == batchId
    requires forall i :: 0 <= i < |jobs| && batchId.Some? ==> jobs[i].batchId != batchId
    ensures BatchesContiguous(jobs + added)
  {
  }

  predicate IsWorkerStep(step: Step) {
    step.CheckShutdown? || step.Pop? || step.Emit? || step.Finish? || step.PollNotified? || step.Resume?
    || step.StopWaiting?
  }

  /** The worker only moves jobs along the queue. */
  lemma WorkerSteps(codecs: Codecs, s: State, step: Step)
    requires Enabled(s, step) && IsWorkerStep(step)
    ensures var t := Do(codecs, s, step);
            && t.accepted == s.accepted && t.submitter == s.submitter && t.connections == s.connections
            && t.finished + InFlight(t.worker) + t.queue.pending == s.finished + InFlight(s.worker) + s.queue.pending
            && t.queue.seenJobIds == s.queue.seenJobIds && t.queue.seenBatchIds == s.queue.seenBatchIds
  {
    hide Trace, DoPop;
    if step.Pop? {
      PopMovesOneJob(codecs, s, step.config, step.world);
    } else if step.Finish? {
      Regroup(s.finished, [s.worker.job], [], s.queue.pending);
    }
  }

  lemma PopMovesOneJob(codecs: Codecs, s: State, config: Config, world: World)
    requires s.worker.Popping?
    ensures var t := DoPop(codecs, s, config, world);
            && t == s.(queue := t.queue, worker := t.worker)
            && t.finished + InFlight(t.worker) + t.queue.pending == s.finished + InFlight(s.worker) + s.queue.pending
            && t.queue.seenJobIds == s.queue.seenJobIds && t.queue.seenBatchIds == s.queue.seenBatchIds
  {
    hide Trace;
    if s.queue.pending != [] {
      assert s.queue.pending == [s.queue.pending[0]] + s.queue.pending[1..];
      Regroup(s.finished, [], [s.queue.pending[0]], s.queue.pending[1..]);
    }
  }

  lemma Regroup(a: seq<QueuedJob>, b: seq<QueuedJob>, c: seq<QueuedJob>, d: seq<QueuedJob>)
    ensures a + b + (c + d) == (a + b) + c + d
    ensures a + [] == a
    ensures [] + c + d == c + d
  {
  }

  /** The queue stays as it is, and so does whose job is whose. */
  ghost predicate OnlyTalks(s: State, t: State) {
    && t.accepted == s.accepted && t.submitter == s.submitter
    && t.finished == s.finished && t.queue == s.queue && InFlight(t.worker) == InFlight(s.worker)
    && s.connections.Keys <= t.connections.Keys
    && (forall c :: c in s.connections ==>
          t.connections[c].origin == s.connections[c].origin && Bound(t.connections[c]) == Bound(s.connections[c]))
    && (forall c :: c in t.connections && c !in s.connections ==> Bound(t.connections[c]) == {})
  }

  /** One connection changed, and neither its origin nor its ids. */
  lemma OneConnectionTalks(s: State, t: State, c: nat, connection: Connection)
    requires c in s.connections && t.connections == s.connections[c := connection]
    requires connection.origin == s.connections[c].origin && Bound(connection) == Bound(s.connections[c])
    requires t == s.(connections := t.connections, worker := t.worker, permit := t.permit)
    requires InFlight(t.worker) == InFlight(s.worker)
    ensures OnlyTalks(s, t)
  {
    hide Bound;
  }

  lemma ArrivalTalks(s: State, c: nat, connection: Connection)
    requires c !in s.connections && Bound(connection) == {}
    ensures OnlyTalks(s, s.(connections := s.connections[c := connection]))
  {
    hide Bound;
  }

  /** Connections, except when they submit, do not touch the queue, nor whose job is whose. */
  lemma ConnectionSteps(codecs: Codecs, s: State, step: Step)
    requires Enabled(s, step) && !IsWorkerStep(step) && !step.Submit?
    ensures OnlyTalks(s, Do(codecs, s, step))
  {
    hide Bound, Received, Departed, OnlyTalks;
    var t := Do(codecs, s, step);
    if step.Shutdown? {
      ShutdownTalks(s);
    } else if step.Connect? {
      BoundAtFirst(t.connections[step.c]);
      ArrivalTalks(s, step.c, t.connections[step.c]);
    } else {
      KeepsBound(s.connections[step.c], s.events);
      OneConnectionTalks(s, t, step.c, t.connections[step.c]);
    }
  }

  lemma ShutdownTalks(s: State)
    ensures OnlyTalks(s, s.(cancelled := true))
  {
  }

  /** Whatever a connection does apart from submitting, the ids bound to it stay the same. */
  lemma KeepsBound(connection: Connection, events: seq<Event>)
    ensures connection.phase.Pushed? ==>
              Bound(connection.(phase := Replying(connection.phase.response, connection.phase.jobIds)))
              == Bound(connection)
    ensures connection.phase.Replying? ==>
              Bound(connection.(
                phase := AtSelect,
                acceptedIds := connection.acceptedIds + (set id | id in connection.phase.jobIds),
                sent := connection.sent + [Answered(connection.phase.response, connection.phase.jobIds)]))
              == Bound(connection)
    ensures connection.phase.AtSelect? || connection.phase.Replying? ==>
              Bound(Departed(connection)) == Bound(connection) && Departed(connection).origin == connection.origin
    ensures connection.next < |events| ==>
              Bound(Received(connection, events)) == Bound(connection)
              && Received(connection, events).origin == connection.origin
  {
  }

  lemma BoundAtFirst(connection: Connection)
    requires connection.phase.AtSelect? && connection.acceptedIds == {}
    ensures Bound(connection) == {}
  {
  }

  ghost predicate History(codecs: Codecs, s: State) {
    Conservation(s) && Ownership(s) && Provenance(codecs, s)
  }

  lemma SubmitKeepsHistory(codecs: Codecs, s: State, c: nat, request: Request, limits: Limits)
    requires In(s, c, AtSelect)
    requires History(codecs, s)
    ensures History(codecs, DoSubmit(codecs, s, c, request, limits))
  {
    hide Handle, DoSubmit, OriginDiscipline, Admitted, Distinct, BatchesContiguous, IdsOf;
    var t := DoSubmit(codecs, s, c, request, limits);
    var added, batch := SubmitEffect(codecs, s, c, request, limits);
    if Appended(codecs, s, t, c, added, batch) {
      AppendKeepsConservation(codecs, s, t, c, added, batch);
      AppendKeepsOwnership(codecs, s, t, c, added, batch);
      AppendKeepsProvenance(codecs, s, t, c, added, batch);
    }
  }

  lemma OtherStepsKeepHistory(codecs: Codecs, s: State, step: Step)
    requires Enabled(s, step) && !step.Submit?
    requires History(codecs, s)
    ensures History(codecs, Do(codecs, s, step))
  {
    hide Do, OriginDiscipline, Admitted, Distinct, BatchesContiguous, IdsOf, Bound;
    if IsWorkerStep(step) {
      WorkerSteps(codecs, s, step);
    } else {
      ConnectionSteps(codecs, s, step);
    }
  }

  lemma StepKeepsHistory(codecs: Codecs, s: State, step: Step)
    requires Enabled(s, step)
    requires History(codecs, s)
    ensures History(codecs, Do(codecs, s, step))
  {
    hide History, DoSubmit, DoPop;
    if step.Submit? {
      SubmitKeepsHistory(codecs, s, step.c, step.request, step.limits);
    } else {
      OtherStepsKeepHistory(codecs, s, step);
    }
  }

  lemma StepKeepsWakeUp(codecs: Codecs, s: State, step: Step)
    requires Enabled(s, step)
    requires NoLostWakeUp(s)
    ensures NoLostWakeUp(Do(codecs, s, step))
  {
    hide Handle, Trace, OriginDiscipline, Admitted, Distinct;
    var t := Do(codecs, s, step);
    if step.Submit? {
      var added, batch := SubmitEffect(codecs, s, step.c, step.request, step.limits);
      if t.queue.pending != s.queue.pending {
        assert t.connections[step.c].phase.Pushed?;
      }
    }
    if ProducerBetweenPushAndNotify(s) && !step.NotifyOne? {
      var c :| c in s.connections && s.connections[c].phase.Pushed?;
      assert t.connections[c].phase.Pushed?;
    }
  }

  lemma StepKeepsInvariant(codecs: Codecs, s: State, step: Step)
    requires Enabled(s, step)
    requires Invariant(codecs, s)
    ensures Invariant(codecs, Do(codecs, s, step))
  {
    StepKeepsHistory(codecs, s, step);
    StepKeepsWakeUp(codecs, s, step);
  }

  /** The invariant holds in every state of every run. */
  lemma {:induction false} RunKeepsInvariant(codecs: Codecs, states: seq<State>, steps: seq<Step>, n: nat)
    requires IsRun(codecs, states, steps) && n < |states|
    ensures Invariant(codecs, states[n])
  {
    if n > 0 {
      RunKeepsInvariant(codecs, states, steps, n - 1);
      StepKeepsInvariant(codecs, states[n - 1], steps[n - 1]);
    }
  }
}
