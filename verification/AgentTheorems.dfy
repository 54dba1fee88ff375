/** The main results about runs of the agent. */
module AgentTheorems {
  import opened Common
  import opened Protocol
  import opened Queue
  import opened Server
  import opened Worker
  import opened PrintAgent
  import opened AgentQueue
  import opened AgentDelivery

  /** The jobs the worker has taken so far, in the order it took them. */
  function Taken(s: State): seq<QueuedJob> {
    s.finished + InFlight(s.worker)
  }

  /**
   Conservation and order, in every state of every run: the accepted jobs are the taken ones
   followed by the pending ones, no id occurs twice, batches stay together, and a worker that
   has exited leaves nothing half-processed.
   */
  lemma QueueIsConserved(codecs: Codecs, states: seq<State>, steps: seq<Step>, n: nat)
    requires IsRun(codecs, states, steps) && n < |states|
    ensures var s := states[n];
            && s.accepted == Taken(s) + s.queue.pending
            && Distinct(s.accepted)
            && BatchesContiguous(Taken(s))
            && (s.worker.Exited? ==> s.cancelled && s.accepted == s.finished + s.queue.pending)
  {
    RunKeepsEverything(codecs, states, steps, n);
    var s := states[n];
    assert forall i :: 0 <= i < |Taken(s)| ==> s.accepted[i] == Taken(s)[i];
    assert s.finished + [] == s.finished;
  }

  /** The accepted history only grows: nothing accepted is ever dropped, reordered or replaced. */
  lemma {:induction false} HistoryOnlyGrows(codecs: Codecs, states: seq<State>, steps: seq<Step>, m: nat, n: nat)
    requires IsRun(codecs, states, steps) && m <= n < |states|
    ensures states[m].accepted <= states[n].accepted
    ensures states[m].finished <= states[n].finished
    ensures states[m].events <= states[n].events
    ensures states[m].queue.seenJobIds <= states[n].queue.seenJobIds
    decreases n
  {
    hide Do, Enabled;
    if m < n {
      HistoryOnlyGrows(codecs, states, steps, m, n - 1);
      StepGrows(codecs, states[n - 1], steps[n - 1]);
    }
  }

  lemma StepGrows(codecs: Codecs, s: State, step: Step)
    requires Enabled(s, step)
    ensures var t := Do(codecs, s, step);
            && s.accepted <= t.accepted && s.finished <= t.finished && s.events <= t.events
            && s.queue.seenJobIds <= t.queue.seenJobIds
  {
    hide Trace, Handle, DoSubmit;
    if step.Submit? {
      var added, batch := SubmitEffect(codecs, s, step.c, step.request, step.limits);
    }
  }

  /** A worker asleep over a non-empty queue has a wake-up on its way. */
  lemma NoWakeUpIsLost(codecs: Codecs, states: seq<State>, steps: seq<Step>, n: nat)
    requires IsRun(codecs, states, steps) && n < |states|
    requires states[n].worker.Parked? && states[n].queue.pending != []
    ensures exists c :: c in states[n].connections && Enabled(states[n], NotifyOne(c))
                        && Do(codecs, states[n], NotifyOne(c)).worker.Woken?
  {
    RunKeepsEverything(codecs, states, steps, n);
    var c :| c in states[n].connections && states[n].connections[c].phase.Pushed?;
    assert Enabled(states[n], NotifyOne(c));
    assert DoNotifyOne(states[n], c).worker.Woken?;
  }

  /** The statuses of one job so far. */
  function StatusesOf(id: string, s: State): seq<JobStatus> {
    Statuses(About({id}, s.events))
  }

  /**
   Every finished job has a complete grammatical history, and over the whole run no id has more
   than one Submitted and one Failed event.
   */
  lemma HistoriesAreGrammatical(codecs: Codecs, states: seq<State>, steps: seq<Step>, n: nat, id: string)
    requires IsRun(codecs, states, steps) && n < |states|
    ensures id in IdsOf(states[n].finished) ==> Grammatical(StatusesOf(id, states[n]))
    ensures Count(StatusesOf(id, states[n]), Submitted) <= 1
    ensures Count(StatusesOf(id, states[n]), Failed) <= 1
  {
    hide IsRun, Provenance, Delivery, Grammatical, IsTrace;
    RunKeepsEverything(codecs, states, steps, n);
    var s := states[n];
    if id in IdsOf(s.finished) {
      var q :| q in s.finished && q.job.jobId == id;
      TracesAreGrammatical(codecs, q, About({id}, s.events));
      GrammarConsequences(StatusesOf(id, s));
    } else if id in IdsOf(InFlight(s.worker)) {
      var emitted, script := s.worker.emitted, s.worker.script;
      TracesAreGrammatical(codecs, s.worker.job, emitted + script);
      GrammarConsequences(Statuses(emitted + script));
      assert Statuses(emitted + script) == Statuses(emitted) + Statuses(script);
      CountConcat(Statuses(emitted), Statuses(script), Submitted);
      CountConcat(Statuses(emitted), Statuses(script), Failed);
    } else {
      IdsOfConcat(s.finished, InFlight(s.worker));
      NothingAboutAbsent(id, s.events);
    }
  }

  lemma TracesAreGrammatical(codecs: Codecs, queued: QueuedJob, events: seq<Event>)
    requires IsTrace(codecs, queued, events)
    ensures Grammatical(Statuses(events))
  {
    hide Trace, Grammatical;
    var config, world :| events == Trace(codecs, queued, config, world);
    TraceIsGrammatical(codecs, queued, config, world);
  }

  lemma {:induction false} CountConcat(a: seq<JobStatus>, b: seq<JobStatus>, status: JobStatus)
    ensures Count(a + b, status) == Count(a, status) + Count(b, status)
  {
    if a == [] {
      assert a + b == b;
    } else {
      assert (a + b)[1..] == a[1..] + b;
      CountConcat(a[1..], b, status);
    }
  }

  /** The accepted-id sets of different connections are disjoint, so no job has two audiences. */
  lemma StatusReachesOneConnection(
    codecs: Codecs, states: seq<State>, steps: seq<Step>, n: nat, c: nat, d: nat, e: Event, f: Event)
    requires IsRun(codecs, states, steps) && n < |states|
    requires c in states[n].connections && d in states[n].connections
    requires e in ForwardedEvents(states[n].connections[c].sent)
    requires f in ForwardedEvents(states[n].connections[d].sent)
    requires e.jobId == f.jobId
    ensures c == d
    ensures e.jobId in states[n].submitter && states[n].submitter[e.jobId] == c
  {
    hide IsRun, Traced, Provenance, Conservation, Delivered;
    RunKeepsEverything(codecs, states, steps, n);
    ForwardedIsBound(states[n].connections[c], states[n].events, e);
    ForwardedIsBound(states[n].connections[d], states[n].events, f);
    assert states[n].submitter[e.jobId] == c;
    assert states[n].submitter[f.jobId] == d;
  }

  lemma ForwardedIsBound(connection: Connection, events: seq<Event>, e: Event)
    requires Delivered(connection, events) && e in ForwardedEvents(connection.sent)
    ensures e.jobId in Bound(connection) && e in events
  {
    var due := About(Bound(connection), events[..connection.next]);
    SubsequenceMembers(ForwardedEvents(connection.sent), due, e);
    AboutMembers(Bound(connection), events[..connection.next], e);
  }

  /**
   What a connection forwards is an in-order part of the worker's events about its own jobs,
   each after the job's acceptance reply; without lag it is all of them up to its position.
   */
  lemma DeliveryIsPrivateAndOrdered(codecs: Codecs, states: seq<State>, steps: seq<Step>, n: nat, c: nat)
    requires IsRun(codecs, states, steps) && n < |states| && c in states[n].connections
    ensures var s := states[n];
            var connection := s.connections[c];
            var mine := set id | id in s.submitter && s.submitter[id] == c;
            && connection.next <= |s.events|
            && IsSubsequence(ForwardedEvents(connection.sent), About(mine, s.events[..connection.next]))
            && (!connection.lagged ==>
                  ForwardedEvents(connection.sent) == About(mine, s.events[..connection.next]))
            && RepliesComeFirst(connection.sent)
  {
    hide IsRun, Traced, Provenance, Conservation, NoLostWakeUp, Ownership;
    hide IsSubsequence, About, ForwardedEvents, RepliesComeFirst, AnsweredBefore;
    RunKeepsEverything(codecs, states, steps, n);
    BoundIsOwned(states[n], c);
  }

  lemma BoundIsOwned(s: State, c: nat)
    requires Ownership(s) && c in s.connections
    ensures Bound(s.connections[c]) == set id | id in s.submitter && s.submitter[id] == c
  {
    hide Bound;
  }

  /**
   The promise to the client: on a connection that never lagged and has read everything
   broadcast so far, each of its finished jobs has been reported from Queued to a terminal
   status, completely and in order.
   */
  lemma ClientSeesWholeHistory(
    codecs: Codecs, states: seq<State>, steps: seq<Step>, n: nat, c: nat, queued: QueuedJob)
    requires IsRun(codecs, states, steps) && n < |states| && c in states[n].connections
    requires !states[n].connections[c].lagged && states[n].connections[c].next == |states[n].events|
    requires queued in states[n].finished
    requires queued.job.jobId in states[n].submitter && states[n].submitter[queued.job.jobId] == c
    ensures var seen := Statuses(About({queued.job.jobId}, ForwardedEvents(states[n].connections[c].sent)));
            Grammatical(seen) && seen[0] == Queued && IsTerminal(seen[|seen| - 1])
  {
    var s := states[n];
    var id := queued.job.jobId;
    DeliveryIsPrivateAndOrdered(codecs, states, steps, n, c);
    var mine := set id | id in s.submitter && s.submitter[id] == c;
    assert s.events[..|s.events|] == s.events;
    AboutOneOfMany(id, mine, s.events);
    HistoriesAreGrammatical(codecs, states, steps, n, id);
    assert id in IdsOf(s.finished);
    GrammarConsequences(StatusesOf(id, s));
  }

  /**
   In every reachable queue an attached origin is the origin of the job's URL and of its own
   submitter's loopback page, and HTML jobs on 127.0.0.1 always carry it.
   */
  lemma OriginsBelongToSubmitter(codecs: Codecs, states: seq<State>, steps: seq<Step>, n: nat, queued: QueuedJob)
    requires IsRun(codecs, states, steps) && n < |states| && queued in states[n].accepted
    ensures var s := states[n];
            && queued.job.jobId in s.submitter
            && s.submitter[queued.job.jobId] in s.connections
            && OriginDiscipline(codecs.parseUrl, s.connections[s.submitter[queued.job.jobId]].origin, queued)
  {
    hide OriginDiscipline;
    RunKeepsEverything(codecs, states, steps, n);
  }

  /** No job that reaches the worker can make it complain about a malformed job. */
  lemma WorkerNeverSeesMalformedJob(
    codecs: Codecs, states: seq<State>, steps: seq<Step>, n: nat, config: Config, world: World)
    requires IsRun(codecs, states, steps) && n < |states| && states[n].worker.Processing?
    ensures var queued := states[n].worker.job;
            var end := JobCourse(codecs, queued, config, world).end;
            end.Err? ==> !end.error.InvalidJob? && (end.error.UnsupportedFormat? ==> IsFileFormat(queued.job.format))
  {
    hide JobCourse;
    RunKeepsEverything(codecs, states, steps, n);
    var s := states[n];
    assert s.worker.job == s.accepted[|s.finished|];
    AcceptanceCoversWorker(codecs, s.worker.job, config, world);
  }
}
