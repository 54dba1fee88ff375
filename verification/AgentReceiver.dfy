/**
 The exact account of one connection over a run: every message is answered once and in order, and
 falling behind the broadcast costs exactly the events that are no longer kept.
 */
module AgentReceiver {
  import opened Common
  import opened Protocol
  import opened Queue
  import opened Server
  import opened Worker
  import opened PrintAgent
  import opened AgentQueue
  import opened AgentDelivery
  import opened AgentTheorems

  // ----- What a step does to one connection -----

  predicate Concerns(step: Step, c: nat) {
    (step.Submit? || step.NotifyOne? || step.Reply? || step.Receive? || step.Disconnect?) && step.c == c
  }

  lemma Untouched(codecs: Codecs, s: State, step: Step, c: nat)
    requires Enabled(s, step) && c in s.connections && !Concerns(step, c)
    ensures var t := Do(codecs, s, step);
            c in t.connections && t.connections[c] == s.connections[c] && s.events <= t.events
  {
    hide Handle, Trace, Received, Departed;
  }

  /** The connection after a step of its own, other than handling a message. */
  function Touched(connection: Connection, step: Step, events: seq<Event>): Connection
    requires step.NotifyOne? ==> connection.phase.Pushed?
    requires step.Reply? ==> connection.phase.Replying?
    requires step.Receive? ==> connection.next < |events|
  {
    match step
    case NotifyOne(_) => connection.(phase := Replying(connection.phase.response, connection.phase.jobIds))
    case Reply(_) =>
      var ids := connection.phase.jobIds;
      connection.(phase := AtSelect,
                  acceptedIds := connection.acceptedIds + (set id | id in ids),
                  sent := connection.sent + [Answered(connection.phase.response, ids)])
    case Receive(_) => Received(connection, events)
    case _ => Departed(connection)
  }

  lemma TouchedByStep(codecs: Codecs, s: State, step: Step, c: nat)
    requires Enabled(s, step) && Concerns(step, c) && !step.Submit?
    ensures c in s.connections && c in Do(codecs, s, step).connections
    ensures Do(codecs, s, step).connections[c] == Touched(s.connections[c], step, s.events)
    ensures Do(codecs, s, step).events == s.events
  {
  }

  // ----- Replies -----

  /** The replies among what was sent. */
  function Replies(sent: seq<Sent>): seq<Sent> {
    if sent == [] then []
    else
      var last := sent[|sent| - 1];
      Replies(sent[..|sent| - 1]) + (if last.Answered? then [last] else [])
  }

  /** The reply that is decided and not yet sent. */
  function Undelivered(phase: Phase): seq<Sent> {
    if phase.Pushed? || phase.Replying? then [Answered(phase.response, phase.jobIds)] else []
  }

  predicate Submits(s: State, step: Step, c: nat) {
    step.Submit? && step.c == c && c in s.connections
  }

  /** The answer that a message deserves: its code or acceptance, and the ids it made the connection's. */
  function Deserved(codecs: Codecs, s: State, step: Step, c: nat): Sent
    requires Submits(s, step, c)
  {
    var o := Handle(codecs, step.limits, s.connections[c].origin, step.request, s.queue);
    Answered(o.response, o.acceptedIds)
  }

  /** The answers to all messages of one connection in the first `n` steps. */
  function Due(codecs: Codecs, states: seq<State>, steps: seq<Step>, n: nat, c: nat): seq<Sent>
    requires n <= |steps| < |states|
  {
    if n == 0 then []
    else
      Due(codecs, states, steps, n - 1, c)
      + (if Submits(states[n - 1], steps[n - 1], c) then [Deserved(codecs, states[n - 1], steps[n - 1], c)] else [])
  }

  /** All answers have been sent, but for one in the making, or one that a departure cut off. */
  ghost predicate Accounted(connection: Connection, due: seq<Sent>) {
    if connection.phase.Gone? then Replies(connection.sent) <= due && |due| <= |Replies(connection.sent)| + 1
    else Replies(connection.sent) + Undelivered(connection.phase) == due
  }

  lemma RepliesAppend(sent: seq<Sent>, message: Sent)
    ensures Replies(sent + [message]) == Replies(sent) + (if message.Answered? then [message] else [])
  {
    assert (sent + [message])[..|sent|] == sent;
  }

  lemma SubmitIsAccounted(codecs: Codecs, s: State, step: Step, c: nat, due: seq<Sent>)
    requires Enabled(s, step) && Submits(s, step, c) && Accounted(s.connections[c], due)
    ensures c in Do(codecs, s, step).connections
    ensures Accounted(Do(codecs, s, step).connections[c], due + [Deserved(codecs, s, step, c)])
  {
    hide Handle;
    var o := Handle(codecs, step.limits, s.connections[c].origin, step.request, s.queue);
    HandleIsAllOrNothing(codecs, step.limits, s.connections[c].origin, step.request, s.queue);
    RepliesAppend(s.connections[c].sent, Answered(o.response, []));
  }

  lemma TouchedIsAccounted(connection: Connection, step: Step, events: seq<Event>, due: seq<Sent>)
    requires step.NotifyOne? ==> connection.phase.Pushed?
    requires step.Reply? ==> connection.phase.Replying?
    requires step.Receive? ==> connection.phase.AtSelect? && connection.next < |events|
    requires step.Disconnect? ==> connection.phase.AtSelect? || connection.phase.Replying?
    requires step.NotifyOne? || step.Reply? || step.Receive? || step.Disconnect?
    requires Accounted(connection, due)
    ensures Accounted(Touched(connection, step, events), due)
  {
    if step.Reply? {
      RepliesAppend(connection.sent, Answered(connection.phase.response, connection.phase.jobIds));
    } else if step.Receive? {
      RepliesAppend(connection.sent, Forwarded(events[connection.next]));
      assert Replies(connection.sent) + [] == Replies(connection.sent);
    }
  }

  lemma OthersAreAccounted(codecs: Codecs, s: State, step: Step, c: nat, due: seq<Sent>)
    requires Enabled(s, step) && !Submits(s, step, c) && c in s.connections && Accounted(s.connections[c], due)
    ensures c in Do(codecs, s, step).connections && Accounted(Do(codecs, s, step).connections[c], due)
  {
    hide Do, Accounted, Touched;
    if Concerns(step, c) {
      TouchedByStep(codecs, s, step, c);
      TouchedIsAccounted(s.connections[c], step, s.events, due);
    } else {
      Untouched(codecs, s, step, c);
    }
  }

  lemma NewConnection(codecs: Codecs, s: State, step: Step, c: nat)
    requires Enabled(s, step) && c !in s.connections && c in Do(codecs, s, step).connections
    ensures !Submits(s, step, c) && Accounted(Do(codecs, s, step).connections[c], [])
  {
    hide Handle, Trace;
    assert Replies([]) == [];
  }

  /**
   Every message is answered exactly once, in the order of the messages, with what handling it came
   to; the last answer may still be under way, or lost with the client's departure.
   */
  lemma {:induction false} EveryMessageIsAnswered(
    codecs: Codecs, states: seq<State>, steps: seq<Step>, n: nat, c: nat)
    requires IsRun(codecs, states, steps) && n < |states|
    ensures if c in states[n].connections
            then Accounted(states[n].connections[c], Due(codecs, states, steps, n, c))
            else Due(codecs, states, steps, n, c) == []
    decreases n
  {
    hide Do, Enabled, Accounted, Deserved;
    if n > 0 {
      EveryMessageIsAnswered(codecs, states, steps, n - 1, c);
      var s, step, due := states[n - 1], steps[n - 1], Due(codecs, states, steps, n - 1, c);
      assert due + [] == due;
      if Submits(s, step, c) {
        SubmitIsAccounted(codecs, s, step, c, due);
      } else if c in s.connections {
        OthersAreAccounted(codecs, s, step, c, due);
      } else if c in states[n].connections {
        NewConnection(codecs, s, step, c);
      }
    }
  }

  // ----- Falling behind -----

  /** The step makes the connection miss events: more are waiting than the broadcast keeps. */
  predicate Overflows(s: State, step: Step, c: nat) {
    && step.Receive? && step.c == c && c in s.connections
    && |s.events| > s.connections[c].next + STATUS_EVENT_CAPACITY
  }

  lemma LagStep(codecs: Codecs, s: State, step: Step, c: nat)
    requires Enabled(s, step) && !Overflows(s, step, c) && c in Do(codecs, s, step).connections
    ensures Do(codecs, s, step).connections[c].lagged ==> c in s.connections && s.connections[c].lagged
  {
    hide Handle, Trace;
    if c in s.connections && !Concerns(step, c) {
      Untouched(codecs, s, step, c);
    } else if c in s.connections && !step.Submit? {
      TouchedByStep(codecs, s, step, c);
    }
  }

  /** A connection is told that it missed events only if it really did. */
  lemma {:induction false} LagIsReal(codecs: Codecs, states: seq<State>, steps: seq<Step>, n: nat, c: nat)
    returns (m: nat)
    requires IsRun(codecs, states, steps) && n < |states|
    requires c in states[n].connections && states[n].connections[c].lagged
    ensures m < n && Overflows(states[m], steps[m], c)
    decreases n
  {
    hide Do, Enabled, Overflows;
    if Overflows(states[n - 1], steps[n - 1], c) {
      m := n - 1;
    } else {
      LagStep(codecs, states[n - 1], steps[n - 1], c);
      m := LagIsReal(codecs, states, steps, n - 1, c);
    }
  }

  lemma {:induction false} AboutConcat(ids: set<string>, a: seq<Event>, b: seq<Event>)
    ensures About(ids, a + b) == About(ids, a) + About(ids, b)
    decreases |b|
  {
    if b == [] {
      assert a + b == a;
    } else {
      assert (a + b)[..|a + b| - 1] == a + b[..|b| - 1];
      AboutConcat(ids, a, b[..|b| - 1]);
    }
  }

  lemma NothingAbout(ids: set<string>)
    ensures About(ids, []) == []
  {
  }

  lemma SentForwards(sent: seq<Sent>, message: Sent)
    ensures ForwardedEvents(sent + [message])
            == ForwardedEvents(sent) + (if message.Forwarded? then [message.event] else [])
  {
    assert (sent + [message])[..|sent|] == sent;
  }

  /** What one step forwards on a connection, and that earlier events stay as interesting as they were. */
  ghost predicate ForwardsOn(s: State, t: State, c: nat, from: nat)
    requires c in s.connections
  {
    var before := s.connections[c];
    && c in t.connections && s.events <= t.events
    && before.next <= t.connections[c].next <= |t.events|
    && from <= before.next <= |s.events|
    && About(Bound(t.connections[c]), s.events[from..before.next])
       == About(Bound(before), s.events[from..before.next])
    && ForwardedEvents(t.connections[c].sent)
       == ForwardedEvents(before.sent)
          + About(Bound(t.connections[c]), t.events[before.next..t.connections[c].next])
  }

  lemma NothingForwarded(s: State, t: State, c: nat, from: nat)
    requires c in s.connections && c in t.connections && s.events <= t.events
    requires from <= s.connections[c].next <= |s.events| && t.connections[c].next == s.connections[c].next
    requires Bound(t.connections[c]) == Bound(s.connections[c])
    requires ForwardedEvents(t.connections[c].sent) == ForwardedEvents(s.connections[c].sent)
    ensures ForwardsOn(s, t, c, from)
  {
    var next := s.connections[c].next;
    assert t.events[next..next] == [];
    assert ForwardedEvents(s.connections[c].sent) + [] == ForwardedEvents(s.connections[c].sent);
  }

  lemma ReceiveForwards(codecs: Codecs, s: State, c: nat, from: nat)
    requires Enabled(s, Receive(c)) && !Overflows(s, Receive(c), c) && from <= s.connections[c].next
    ensures ForwardsOn(s, Do(codecs, s, Receive(c)), c, from)
  {
    hide Do;
    TouchedByStep(codecs, s, Receive(c), c);
    var before := s.connections[c];
    var event := s.events[before.next];
    assert s.events[before.next..before.next + 1] == [] + [event];
    AboutAppend(Bound(before), [], event);
    SentForwards(before.sent, Forwarded(event));
    assert Bound(before) == before.acceptedIds;
    assert ForwardedEvents(before.sent) + [] == ForwardedEvents(before.sent);
  }

  /** Newly submitted ids are no business of the events that were there before. */
  lemma FreshIdsForward(s: State, t: State, c: nat, from: nat, added: set<string>)
    requires c in s.connections && c in t.connections && t.events == s.events
    requires from <= s.connections[c].next <= |s.events| && t.connections[c].next == s.connections[c].next
    requires t.connections[c].sent == s.connections[c].sent
    requires Bound(t.connections[c]) == Bound(s.connections[c]) + added
    requires forall e :: e in s.events ==> e.jobId !in added
    ensures ForwardsOn(s, t, c, from)
  {
    var next := s.connections[c].next;
    assert t.events[next..next] == [];
    assert ForwardedEvents(s.connections[c].sent) + [] == ForwardedEvents(s.connections[c].sent);
    AboutIgnoresAbsent(Bound(s.connections[c]), added, s.events[from..next]);
  }

  lemma SubmitterForwards(codecs: Codecs, s: State, step: Step, from: nat)
    requires Enabled(s, step) && step.Submit? && from <= s.connections[step.c].next <= |s.events|
    requires Conservation(s) && Traced(codecs, s)
    ensures ForwardsOn(s, Do(codecs, s, step), step.c, from)
  {
    hide Handle, Traced, DoSubmit, Distinct, Admitted, OriginDiscipline, BatchesContiguous, ForwardsOn, About;
    hide ForwardedEvents;
    var c := step.c;
    var before, t := s.connections[c], Do(codecs, s, step);
    assert t == DoSubmit(codecs, s, c, step.request, step.limits);
    var added, batch := SubmitEffect(codecs, s, c, step.request, step.limits);
    if Appended(codecs, s, t, c, added, batch) {
      var phase := t.connections[c].phase;
      forall e | e in s.events ensures e.jobId !in PhaseIds(phase) {
        EventsAreAboutAccepted(codecs, s, e);
        assert e.jobId !in IdsOf(added) * s.queue.seenJobIds;
      }
      assert Bound(t.connections[c]) == Bound(before) + PhaseIds(phase);
      FreshIdsForward(s, t, c, from, PhaseIds(phase));
    } else {
      var response :| t == s.(connections := s.connections[c := before.(
        sent := before.sent + [Answered(response, [])])]);
      SentForwards(before.sent, Answered(response, []));
      assert ForwardedEvents(before.sent) + [] == ForwardedEvents(before.sent);
      assert Bound(t.connections[c]) == Bound(before);
      NothingForwarded(s, t, c, from);
    }
  }

  lemma OthersForward(codecs: Codecs, s: State, step: Step, c: nat, from: nat)
    requires Enabled(s, step) && Concerns(step, c) && !step.Submit? && !step.Receive?
    requires c in s.connections && from <= s.connections[c].next <= |s.events|
    ensures ForwardsOn(s, Do(codecs, s, step), c, from)
  {
    hide Do, ForwardsOn, About, ForwardedEvents;
    var before := s.connections[c];
    TouchedByStep(codecs, s, step, c);
    var after := Do(codecs, s, step).connections[c];
    assert Bound(after) == Bound(before);
    if step.Reply? {
      SentForwards(before.sent, Answered(before.phase.response, before.phase.jobIds));
      assert ForwardedEvents(before.sent) + [] == ForwardedEvents(before.sent);
    }
    NothingForwarded(s, Do(codecs, s, step), c, from);
  }

  /** The connection receives without overflow between two states of a run. */
  ghost predicate KeepsUp(states: seq<State>, steps: seq<Step>, m: nat, n: nat, c: nat)
    requires m <= n <= |steps| < |states|
  {
    forall k :: m <= k < n ==> !Overflows(states[k], steps[k], c)
  }

  lemma {:induction false} ForwardsSince(codecs: Codecs, states: seq<State>, steps: seq<Step>, m: nat, n: nat, c: nat)
    requires IsRun(codecs, states, steps) && m <= n < |states|
    requires c in states[m].connections && KeepsUp(states, steps, m, n, c)
    ensures c in states[n].connections
    ensures var from, to := states[m].connections[c].next, states[n].connections[c].next;
            && from <= to <= |states[n].events|
            && ForwardedEvents(states[n].connections[c].sent)
               == ForwardedEvents(states[m].connections[c].sent)
                  + About(Bound(states[n].connections[c]), states[n].events[from..to])
    decreases n
  {
    hide Do, Enabled, About, ForwardedEvents, Bound, Overflows, Conservation, Traced, History, NoLostWakeUp;
    var from := states[m].connections[c].next;
    RunKeepsEverything(codecs, states, steps, n);
    if m == n {
      assert Delivered(states[n].connections[c], states[n].events);
      assert states[n].events[from..from] == [];
      NothingAbout(Bound(states[n].connections[c]));
      assert ForwardedEvents(states[m].connections[c].sent) + [] == ForwardedEvents(states[m].connections[c].sent);
    } else {
      ForwardsSince(codecs, states, steps, m, n - 1, c);
      RunKeepsEverything(codecs, states, steps, n - 1);
      var s, step, t := states[n - 1], steps[n - 1], states[n];
      StepForwards(codecs, s, step, c, from);
      var middle, to := s.connections[c].next, t.connections[c].next;
      assert t.events[from..middle] == s.events[from..middle];
      assert t.events[from..to] == t.events[from..middle] + t.events[middle..to];
      AboutConcat(Bound(t.connections[c]), t.events[from..middle], t.events[middle..to]);
    }
  }

  lemma StepForwards(codecs: Codecs, s: State, step: Step, c: nat, from: nat)
    requires Enabled(s, step) && Everything(codecs, s) && !Overflows(s, step, c)
    requires c in s.connections && from <= s.connections[c].next <= |s.events|
    ensures ForwardsOn(s, Do(codecs, s, step), c, from)
  {
    hide Do, ForwardsOn, Overflows, NoLostWakeUp, Delivery, Traced, Conservation;
    if !Concerns(step, c) {
      Untouched(codecs, s, step, c);
      NothingForwarded(s, Do(codecs, s, step), c, from);
    } else if step.Receive? {
      ReceiveForwards(codecs, s, c, from);
    } else if step.Submit? {
      SubmitterForwards(codecs, s, step, from);
    } else {
      OthersForward(codecs, s, step, c, from);
    }
  }

  lemma OverflowStep(codecs: Codecs, s: State, step: Step, c: nat)
    requires Enabled(s, step) && Overflows(s, step, c)
    ensures var t := Do(codecs, s, step);
            && c in t.connections && t.events == s.events
            && t.connections[c] == s.connections[c].(next := |s.events| - STATUS_EVENT_CAPACITY, lagged := true)
  {
  }

  /**
   What an overflow costs: the connection goes on with the oldest event that is still kept, and until
   it overflows again it forwards every later event about its own jobs, in order.
   */
  lemma LagCostsOnlyTheOldest(codecs: Codecs, states: seq<State>, steps: seq<Step>, k: nat, n: nat, c: nat)
    requires IsRun(codecs, states, steps) && k < n < |states|
    requires Overflows(states[k], steps[k], c) && KeepsUp(states, steps, k + 1, n, c)
    ensures c in states[n].connections && states[n].connections[c].lagged
    ensures var s := states[n];
            var from, to := |states[k].events| - STATUS_EVENT_CAPACITY, s.connections[c].next;
            var mine := set id | id in s.submitter && s.submitter[id] == c;
            && states[k].connections[c].next < from <= to <= |s.events|
            && ForwardedEvents(s.connections[c].sent)
               == ForwardedEvents(states[k].connections[c].sent) + About(mine, s.events[from..to])
  {
    hide Do, Enabled, About, ForwardedEvents, Bound, Conservation, Traced, Provenance, Delivery, NoLostWakeUp;
    OverflowStep(codecs, states[k], steps[k], c);
    ForwardsSince(codecs, states, steps, k + 1, n, c);
    LagStays(codecs, states, steps, k + 1, n, c);
    RunKeepsEverything(codecs, states, steps, n);
    BoundIsOwned(states[n], c);
  }

  lemma LagStaysOneStep(codecs: Codecs, s: State, step: Step, c: nat)
    requires Enabled(s, step) && c in s.connections && s.connections[c].lagged
    ensures c in Do(codecs, s, step).connections && Do(codecs, s, step).connections[c].lagged
  {
    hide Handle, Trace;
  }

  lemma {:induction false} LagStays(codecs: Codecs, states: seq<State>, steps: seq<Step>, m: nat, n: nat, c: nat)
    requires IsRun(codecs, states, steps) && m <= n < |states|
    requires c in states[m].connections && states[m].connections[c].lagged
    ensures c in states[n].connections && states[n].connections[c].lagged
    decreases n
  {
    hide Do, Enabled;
    if m < n {
      LagStays(codecs, states, steps, m, n - 1, c);
      LagStaysOneStep(codecs, states[n - 1], steps[n - 1], c);
    }
  }

  lemma ConnectedNow(codecs: Codecs, s: State, step: Step)
    requires Enabled(s, step) && step.Connect?
    ensures var t := Do(codecs, s, step);
            && step.c in t.connections && t.connections[step.c].sent == []
            && t.connections[step.c].next == |s.events| && t.connections[step.c].origin == step.origin
  {
  }

  /** A connection that keeps up forwards every event about its own jobs since it connected. */
  lemma KeepingUpMissesNothing(codecs: Codecs, states: seq<State>, steps: seq<Step>, m: nat, n: nat)
    requires IsRun(codecs, states, steps) && m < n < |states| && steps[m].Connect?
    requires KeepsUp(states, steps, m + 1, n, steps[m].c)
    ensures steps[m].c in states[n].connections
    ensures var s, c := states[n], steps[m].c;
            var mine := set id | id in s.submitter && s.submitter[id] == c;
            && |states[m].events| <= s.connections[c].next <= |s.events|
            && ForwardedEvents(s.connections[c].sent)
               == About(mine, s.events[|states[m].events|..s.connections[c].next])
  {
    hide Do, Enabled, About, Bound, Conservation, Traced, Provenance, Delivery, NoLostWakeUp;
    var c := steps[m].c;
    ConnectedNow(codecs, states[m], steps[m]);
    ForwardsSince(codecs, states, steps, m + 1, n, c);
    RunKeepsEverything(codecs, states, steps, n);
    BoundIsOwned(states[n], c);
    assert ForwardedEvents([]) == [];
  }
}
