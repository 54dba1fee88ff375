/**
 Whole-run facts about status events: every job's events form one grammatical history, and
 each connection is told, in order and after its acceptance reply, about its own jobs only.
 */
module AgentDelivery {
  import opened Common
  import opened Protocol
  import opened Queue
  import opened Server
  import opened Worker
  import opened PrintAgent
  import opened AgentQueue

  /** The events about the given jobs, in order. */
  function About(ids: set<string>, events: seq<Event>): seq<Event> {
    if events == [] then []
    else
      var last := events[|events| - 1];
      About(ids, events[..|events| - 1]) + (if last.jobId in ids then [last] else [])
  }

  /** `a` can be obtained from `b` by dropping elements. */
  predicate IsSubsequence(a: seq<Event>, b: seq<Event>)
    decreases |b|
  {
    || a == []
    || (b != [] && a[|a| - 1] == b[|b| - 1] && IsSubsequence(a[..|a| - 1], b[..|b| - 1]))
    || (b != [] && IsSubsequence(a, b[..|b| - 1]))
  }

  function ForwardedEvents(sent: seq<Sent>): seq<Event> {
    if sent == [] then []
    else
      var last := sent[|sent| - 1];
      ForwardedEvents(sent[..|sent| - 1]) + (if last.Forwarded? then [last.event] else [])
  }

  /** The reply tells the client that the job is in the queue. */
  predicate IsAcceptance(message: Sent, jobId: string) {
    message.Answered? && message.response.JobQueued? && jobId in message.jobIds
  }

  /** Some earlier reply told the client that this job had been accepted. */
  ghost predicate AnsweredBefore(sent: seq<Sent>, i: nat, jobId: string)
    requires i <= |sent|
  {
    exists j :: 0 <= j < i && IsAcceptance(sent[j], jobId)
  }

  /** No status is forwarded for a job before its acceptance reply. */
  ghost predicate RepliesComeFirst(sent: seq<Sent>) {
    forall i :: 0 <= i < |sent| && sent[i].Forwarded? ==> AnsweredBefore(sent, i, sent[i].event.jobId)
  }

  /** What one connection has been told so far, against the whole event stream. */
  ghost predicate Delivered(connection: Connection, events: seq<Event>) {
    && connection.next <= |events|
    && var due := About(Bound(connection), events[..connection.next]);
    && IsSubsequence(ForwardedEvents(connection.sent), due)
    && (!connection.lagged ==> ForwardedEvents(connection.sent) == due)
    && RepliesComeFirst(connection.sent)
    && (!connection.phase.Gone? ==>
          forall id :: id in connection.acceptedIds ==> AnsweredBefore(connection.sent, |connection.sent|, id))
    && (connection.phase.Pushed? || connection.phase.Replying? ==> connection.phase.response.JobQueued?)
  }

  ghost predicate Delivery(s: State) {
    forall c :: c in s.connections ==> Delivered(s.connections[c], s.events)
  }

  ghost predicate IsTrace(codecs: Codecs, queued: QueuedJob, events: seq<Event>) {
    exists config, world :: events == Trace(codecs, queued, config, world)
  }

  /** Finished jobs have emitted a whole trace, the job in flight a first part of one. */
  ghost predicate Traced(codecs: Codecs, s: State) {
    && (forall e :: e in s.events ==> e.jobId in IdsOf(s.finished + InFlight(s.worker)))
    && (forall q :: q in s.finished ==> IsTrace(codecs, q, About({q.job.jobId}, s.events)))
    && (s.worker.Processing? ==>
          && IsTrace(codecs, s.worker.job, s.worker.emitted + s.worker.script)
          && s.worker.emitted == About({s.worker.job.job.jobId}, s.events)
          && forall e :: e in s.worker.script ==> e.jobId == s.worker.job.job.jobId)
  }

  // ----- Sequences of events -----

  lemma AboutAppend(ids: set<string>, events: seq<Event>, event: Event)
    ensures About(ids, events + [event]) == About(ids, events) + (if event.jobId in ids then [event] else [])
  {
    assert (events + [event])[..|events|] == events;
  }

  /** Ids that no event mentions do not matter. */
  lemma {:induction false} AboutIgnoresAbsent(ids: set<string>, more: set<string>, events: seq<Event>)
    requires forall e :: e in events ==> e.jobId !in more
    ensures About(ids + more, events) == About(ids, events)
  {
    if events != [] {
      AboutIgnoresAbsent(ids, more, events[..|events| - 1]);
    }
  }

  lemma {:induction false} AboutMembers(ids: set<string>, events: seq<Event>, e: Event)
    requires e in About(ids, events)
    ensures e in events && e.jobId in ids
  {
    if events != [] {
      var last := events[|events| - 1];
      if e in About(ids, events[..|events| - 1]) {
        AboutMembers(ids, events[..|events| - 1], e);
      }
    }
  }

  /** Looking for one job among the events of many finds the same as looking among all. */
  lemma {:induction false} AboutOneOfMany(id: string, ids: set<string>, events: seq<Event>)
    requires id in ids
    ensures About({id}, About(ids, events)) == About({id}, events)
  {
    if events != [] {
      var last := events[|events| - 1];
      AboutOneOfMany(id, ids, events[..|events| - 1]);
      if last.jobId in ids {
        AboutAppend({id}, About(ids, events[..|events| - 1]), last);
      } else {
        assert About(ids, events) == About(ids, events[..|events| - 1]);
      }
    }
  }

  lemma {:induction false} SubsequenceMembers(a: seq<Event>, b: seq<Event>, e: Event)
    requires IsSubsequence(a, b) && e in a
    ensures e in b
    decreases |b|
  {
    if b != [] {
      if a[|a| - 1] == b[|b| - 1] && IsSubsequence(a[..|a| - 1], b[..|b| - 1]) {
        if e != a[|a| - 1] {
          SubsequenceMembers(a[..|a| - 1], b[..|b| - 1], e);
        }
      } else {
        SubsequenceMembers(a, b[..|b| - 1], e);
      }
    }
  }

  lemma SubsequenceAppend(a: seq<Event>, b: seq<Event>, event: Event)
    requires IsSubsequence(a, b)
    ensures IsSubsequence(a, b + [event])
    ensures IsSubsequence(a + [event], b + [event])
  {
    assert (b + [event])[..|b|] == b;
    assert (a + [event])[..|a|] == a;
  }

  lemma {:induction false} SubsequenceOfLonger(a: seq<Event>, ids: set<string>, events: seq<Event>, m: nat, n: nat)
    requires m <= n <= |events|
    requires IsSubsequence(a, About(ids, events[..m]))
    ensures IsSubsequence(a, About(ids, events[..n]))
    decreases n
  {
    if m < n {
      SubsequenceOfLonger(a, ids, events, m, n - 1);
      assert events[..n] == events[..n - 1] + [events[n - 1]];
      AboutAppend(ids, events[..n - 1], events[n - 1]);
      SubsequenceAppend(a, About(ids, events[..n - 1]), events[n - 1]);
      assert About(ids, events[..n - 1]) + [] == About(ids, events[..n - 1]);
    }
  }

  lemma {:induction false} NothingAboutNobody(events: seq<Event>)
    ensures About({}, events) == []
  {
    if events != [] {
      NothingAboutNobody(events[..|events| - 1]);
    }
  }

  // ----- One connection -----

  lemma SentMore(sent: seq<Sent>, message: Sent)
    requires RepliesComeFirst(sent)
    requires message.Forwarded? ==> AnsweredBefore(sent, |sent|, message.event.jobId)
    ensures RepliesComeFirst(sent + [message])
    ensures forall id :: AnsweredBefore(sent, |sent|, id) ==> AnsweredBefore(sent + [message], |sent| + 1, id)
    ensures forall id :: IsAcceptance(message, id) ==> AnsweredBefore(sent + [message], |sent| + 1, id)
    ensures ForwardedEvents(sent + [message])
            == ForwardedEvents(sent) + (if message.Forwarded? then [message.event] else [])
  {
    var longer := sent + [message];
    assert longer[..|sent|] == sent;
    forall i | 0 <= i < |longer| && longer[i].Forwarded? ensures AnsweredBefore(longer, i, longer[i].event.jobId) {
      var id := longer[i].event.jobId;
      assert AnsweredBefore(sent, i, id);
      var j :| 0 <= j < i && IsAcceptance(sent[j], id);
      assert longer[j] == sent[j];
    }
    forall id | AnsweredBefore(sent, |sent|, id) ensures AnsweredBefore(longer, |longer|, id) {
      var j :| 0 <= j < |sent| && IsAcceptance(sent[j], id);
      assert longer[j] == sent[j];
    }
    forall id | IsAcceptance(message, id) ensures AnsweredBefore(longer, |longer|, id) {
      assert longer[|sent|] == message;
    }
  }

  lemma LaterEventsDoNotMatter(connection: Connection, events: seq<Event>, event: Event)
    requires Delivered(connection, events)
    ensures Delivered(connection, events + [event])
  {
    assert (events + [event])[..connection.next] == events[..connection.next];
  }

  lemma AnswerDelivers(connection: Connection, events: seq<Event>, response: Response, jobIds: seq<string>)
    requires Delivered(connection, events)
    ensures Delivered(connection.(sent := connection.sent + [Answered(response, jobIds)]), events)
  {
    var message := Answered(response, jobIds);
    SentMore(connection.sent, message);
    assert ForwardedEvents(connection.sent) + [] == ForwardedEvents(connection.sent);
  }

  lemma BindingDelivers(connection: Connection, events: seq<Event>)
    requires Delivered(connection, events) && connection.phase.Replying?
    ensures var ids := connection.phase.jobIds;
            Delivered(connection.(phase := AtSelect,
                                  acceptedIds := connection.acceptedIds + (set id | id in ids),
                                  sent := connection.sent + [Answered(connection.phase.response, ids)]), events)
  {
    hide About, IsSubsequence, RepliesComeFirst, ForwardedEvents, AnsweredBefore;
    var ids := connection.phase.jobIds;
    var message := Answered(connection.phase.response, ids);
    var answered := connection.(sent := connection.sent + [message]);
    var bound := answered.(phase := AtSelect, acceptedIds := connection.acceptedIds + (set id | id in ids));
    AnswerDelivers(connection, events, connection.phase.response, ids);
    RepliesSoFar(connection, events);
    SentMore(connection.sent, message);
    assert forall id :: id in ids ==> IsAcceptance(message, id);
    assert Bound(bound) == Bound(answered);
  }

  lemma RepliesSoFar(connection: Connection, events: seq<Event>)
    requires Delivered(connection, events)
    ensures RepliesComeFirst(connection.sent)
  {
  }

  lemma DepartureDelivers(connection: Connection, events: seq<Event>)
    requires Delivered(connection, events) && (connection.phase.AtSelect? || connection.phase.Replying?)
    ensures Delivered(Departed(connection), events)
  {
    assert Bound(Departed(connection)) == Bound(connection);
  }

  lemma PushDelivers(connection: Connection, events: seq<Event>, phase: Phase)
    requires Delivered(connection, events) && connection.phase.AtSelect?
    requires phase.Pushed? && phase.response.JobQueued?
    requires forall e :: e in events ==> e.jobId !in PhaseIds(phase)
    ensures Delivered(connection.(phase := phase), events)
  {
    assert Bound(connection) == connection.acceptedIds;
    AboutIgnoresAbsent(connection.acceptedIds, PhaseIds(phase), events[..connection.next]);
  }

  lemma ReceptionDelivers(connection: Connection, events: seq<Event>)
    requires Delivered(connection, events) && connection.phase.AtSelect? && connection.next < |events|
    ensures Delivered(Received(connection, events), events)
  {
    var after := Received(connection, events);
    var due := About(Bound(connection), events[..connection.next]);
    assert Bound(after) == Bound(connection) == connection.acceptedIds;
    if |events| - connection.next > STATUS_EVENT_CAPACITY {
      SubsequenceOfLonger(ForwardedEvents(connection.sent), Bound(connection), events, connection.next, after.next);
    } else {
      var event := events[connection.next];
      assert events[..after.next] == events[..connection.next] + [event];
      AboutAppend(Bound(connection), events[..connection.next], event);
      if event.jobId in connection.acceptedIds {
        SentMore(connection.sent, Forwarded(event));
        SubsequenceAppend(ForwardedEvents(connection.sent), due, event);
      } else {
        assert due + [] == due;
      }
    }
  }

  // ----- All steps -----

  lemma StepKeepsDelivery(codecs: Codecs, s: State, step: Step)
    requires Enabled(s, step)
    requires History(codecs, s) && Traced(codecs, s) && Delivery(s)
    ensures Delivery(Do(codecs, s, step))
  {
    hide Handle, Trace, Delivered, DoSubmit, DoPop, History, Traced, Bound;
    var t := Do(codecs, s, step);
    match step
    case Connect(c, _) =>
      FreshDelivers(t.connections[c], s.events);
    case Submit(c, request, limits) =>
      SubmitKeepsDelivery(codecs, s, c, request, limits);
    case NotifyOne(c) =>
      NotifyDelivers(s.connections[c], s.events);
    case Reply(c) =>
      BindingDelivers(s.connections[c], s.events);
    case Receive(c) =>
      ReceptionDelivers(s.connections[c], s.events);
    case Disconnect(c) =>
      DepartureDelivers(s.connections[c], s.events);
    case Emit =>
      forall c | c in s.connections ensures Delivered(s.connections[c], t.events) {
        LaterEventsDoNotMatter(s.connections[c], s.events, s.worker.script[0]);
      }
    case Pop(config, world) =>
      PopIsPrivate(codecs, s, config, world);
    case _ =>
  }

  lemma PopIsPrivate(codecs: Codecs, s: State, config: Config, world: World)
    ensures var t := DoPop(codecs, s, config, world);
            t.connections == s.connections && t.events == s.events
  {
    hide Trace;
  }

  lemma FreshDelivers(connection: Connection, events: seq<Event>)
    requires connection == Connection(connection.origin, AtSelect, {}, |events|, false, [])
    ensures Delivered(connection, events)
  {
    NothingAboutNobody(events);
    assert Bound(connection) == {};
    assert events[..|events|] == events;
  }

  lemma NotifyDelivers(connection: Connection, events: seq<Event>)
    requires Delivered(connection, events) && connection.phase.Pushed?
    ensures Delivered(connection.(phase := Replying(connection.phase.response, connection.phase.jobIds)), events)
  {
    var replying := Replying(connection.phase.response, connection.phase.jobIds);
    assert Bound(connection) == Bound(connection.(phase := replying));
  }

  lemma SubmitKeepsDelivery(codecs: Codecs, s: State, c: nat, request: Request, limits: Limits)
    requires In(s, c, AtSelect)
    requires History(codecs, s) && Traced(codecs, s) && Delivery(s)
    ensures Delivery(DoSubmit(codecs, s, c, request, limits))
  {
    hide Delivered, DoSubmit, Bound, OriginDiscipline, Admitted, Distinct, BatchesContiguous, Provenance, Ownership;
    var t := DoSubmit(codecs, s, c, request, limits);
    var added, batch := SubmitEffect(codecs, s, c, request, limits);
    if Appended(codecs, s, t, c, added, batch) {
      forall e | e in s.events ensures e.jobId !in PhaseIds(t.connections[c].phase) {
        EventsAreAboutAccepted(codecs, s, e);
        assert e.jobId !in IdsOf(added) * s.queue.seenJobIds;
      }
      PushDelivers(s.connections[c], s.events, t.connections[c].phase);
    } else {
      var response :| t == s.(connections := s.connections[c := s.connections[c].(
        sent := s.connections[c].sent + [Answered(response, [])])]);
      AnswerDelivers(s.connections[c], s.events, response, []);
    }
  }

  lemma EventsAreAboutAccepted(codecs: Codecs, s: State, e: Event)
    requires Conservation(s) && Traced(codecs, s) && e in s.events
    ensures e.jobId in IdsOf(s.accepted)
  {
    IdsOfConcat(s.finished + InFlight(s.worker), s.queue.pending);
  }

  lemma TraceIsAboutItsJob(codecs: Codecs, queued: QueuedJob, config: Config, world: World)
    ensures IsTrace(codecs, queued, [] + Trace(codecs, queued, config, world))
    ensures forall e :: e in Trace(codecs, queued, config, world) ==> e.jobId == queued.job.jobId
  {
    hide JobCourse;
    assert [] + Trace(codecs, queued, config, world) == Trace(codecs, queued, config, world);
  }

  lemma {:induction false} NothingAboutAbsent(id: string, events: seq<Event>)
    requires forall e :: e in events ==> e.jobId != id
    ensures About({id}, events) == []
  {
    if events != [] {
      NothingAboutAbsent(id, events[..|events| - 1]);
    }
  }

  lemma PopKeepsTraced(codecs: Codecs, s: State, config: Config, world: World)
    requires s.worker.Popping? && Conservation(s) && Traced(codecs, s)
    ensures Traced(codecs, DoPop(codecs, s, config, world))
  {
    hide Trace, IsTrace;
    var t := DoPop(codecs, s, config, world);
    if s.queue.pending != [] {
      var job := s.queue.pending[0];
      TraceIsAboutItsJob(codecs, job, config, world);
      assert InFlight(s.worker) == [] && s.finished + [] == s.finished;
      assert job == s.accepted[|s.finished|];
      forall e | e in s.events ensures e.jobId != job.job.jobId {
        var q :| q in s.finished && q.job.jobId == e.jobId;
        var i :| 0 <= i < |s.finished| && s.finished[i] == q;
        assert s.accepted[i] == q;
      }
      NothingAboutAbsent(job.job.jobId, s.events);
      IdsOfConcat(s.finished, [job]);
    }
  }

  /** Every finished job is another one than the job in flight. */
  lemma InFlightIsNew(s: State, q: QueuedJob)
    requires Conservation(s) && s.worker.Processing? && q in s.finished
    ensures q.job.jobId != s.worker.job.job.jobId
  {
    hide IdsOf, BatchesContiguous;
    var i :| 0 <= i < |s.finished| && s.finished[i] == q;
    assert s.accepted[i] == q;
    assert s.accepted[|s.finished|] == s.worker.job;
  }

  lemma OtherTraceStays(codecs: Codecs, q: QueuedJob, events: seq<Event>, event: Event)
    requires IsTrace(codecs, q, About({q.job.jobId}, events)) && event.jobId != q.job.jobId
    ensures IsTrace(codecs, q, About({q.job.jobId}, events + [event]))
  {
    hide IsTrace, About;
    AboutAppend({q.job.jobId}, events, event);
    assert About({q.job.jobId}, events) + [] == About({q.job.jobId}, events);
  }

  lemma EmitKeepsTraced(codecs: Codecs, s: State)
    requires Enabled(s, Emit)
    requires Conservation(s) && Traced(codecs, s)
    ensures Traced(codecs, Do(codecs, s, Emit))
  {
    hide Trace, IsTrace, About, Conservation;
    var t := Do(codecs, s, Emit);
    var job := s.worker.job;
    var event := s.worker.script[0];
    assert event in s.worker.script;
    assert s.worker.emitted + s.worker.script == t.worker.emitted + t.worker.script;
    AboutAppend({job.job.jobId}, s.events, event);
    assert job.job.jobId in IdsOf(s.finished + [job]) by {
      assert job in s.finished + [job];
    }
    forall q | q in s.finished ensures IsTrace(codecs, q, About({q.job.jobId}, t.events)) {
      InFlightIsNew(s, q);
      OtherTraceStays(codecs, q, s.events, event);
    }
    forall e | e in t.worker.script ensures e.jobId == job.job.jobId {
      assert e in s.worker.script;
    }
  }

  lemma StepKeepsTraced(codecs: Codecs, s: State, step: Step)
    requires Enabled(s, step)
    requires Conservation(s) && Traced(codecs, s)
    ensures Traced(codecs, Do(codecs, s, step))
  {
    hide Trace, IsTrace, Handle, Distinct, BatchesContiguous, IdsOf, DoPop;
    if step.Pop? {
      PopKeepsTraced(codecs, s, step.config, step.world);
    } else if step.Emit? {
      EmitKeepsTraced(codecs, s);
    } else if step.Finish? {
      assert s.worker.emitted + [] == s.worker.emitted;
      assert s.finished + [s.worker.job] + [] == s.finished + [s.worker.job];
    }
  }

  ghost predicate Everything(codecs: Codecs, s: State) {
    Invariant(codecs, s) && Traced(codecs, s) && Delivery(s)
  }

  /** All invariants hold in every state of every run. */
  lemma {:induction false} RunKeepsEverything(codecs: Codecs, states: seq<State>, steps: seq<Step>, n: nat)
    requires IsRun(codecs, states, steps) && n < |states|
    ensures Everything(codecs, states[n])
  {
    hide Do, Enabled, Invariant, Traced, Delivery, History;
    if n == 0 {
      StartIsFine(codecs);
    } else {
      RunKeepsEverything(codecs, states, steps, n - 1);
      var s, step := states[n - 1], steps[n - 1];
      StepKeepsEverything(codecs, s, step);
    }
  }

  lemma StartIsFine(codecs: Codecs)
    ensures Everything(codecs, INITIAL)
  {
  }

  lemma StepKeepsEverything(codecs: Codecs, s: State, step: Step)
    requires Enabled(s, step) && Everything(codecs, s)
    ensures Everything(codecs, Do(codecs, s, step))
  {
    hide Do, Enabled, Traced, Delivery, Conservation, Provenance, Ownership;
    StepKeepsInvariant(codecs, s, step);
    StepKeepsTraced(codecs, s, step);
    StepKeepsDelivery(codecs, s, step);
  }
}
