/**
 The running agent as a step system: any number of WebSocket connections, one queue, one
 worker, a one-permit notifier, a bounded broadcast of status events and a shutdown signal.

 Each step is one atomic action of one task; steps of different tasks interleave freely.
 `accepted`, `finished` and `submitter` only record history; no step reads them.
 */
module PrintAgent {
  import opened Common
  import opened Protocol
  import opened Queue
  import opened Server
  import opened Worker

  /** How many events the broadcast channel keeps for a slow receiver. */
  const STATUS_EVENT_CAPACITY := 128

  /** A message that a connection has written to its socket. */
  datatype Sent = Answered(response: Response, jobIds: seq<string>) | Forwarded(event: Event)

  /** Where a connection's task stands in its loop. */
  datatype Phase =
    | AtSelect
    | Pushed(response: Response, jobIds: seq<string>)   // in the queue, notifier not yet called
    | Replying(response: Response, jobIds: seq<string>) // notified, ids not yet bound, reply not yet sent
    | Gone

  datatype Connection = Connection(
    origin: Option<string>,
    phase: Phase,
    acceptedIds: set<string>,
    next: nat,      // position of this receiver in the event stream
    lagged: bool,   // whether it was ever told that it missed events
    sent: seq<Sent>)

  datatype WorkerAt =
    | Top
    | Popping
    | Processing(job: QueuedJob, emitted: seq<Event>, script: seq<Event>)
    | FoundNothing // the queue was empty, the notifier has not been polled yet
    | Parked
    | Woken
    | Exited

  datatype State = State(
    queue: Contents,
    permit: bool,
    worker: WorkerAt,
    cancelled: bool,
    connections: map<nat, Connection>,
    events: seq<Event>,
    accepted: seq<QueuedJob>,
    finished: seq<QueuedJob>,
    submitter: map<string, nat>)

  const INITIAL := State(EMPTY, false, Top, false, map[], [], [], [], map[])

  datatype Step =
    | Connect(c: nat, origin: Option<string>)
    | Submit(c: nat, request: Request, limits: Limits)
    | NotifyOne(c: nat)
    | Reply(c: nat)
    | Receive(c: nat)
    | Disconnect(c: nat)
    | CheckShutdown
    | Pop(config: Config, world: World)
    | Emit
    | Finish
    | PollNotified
    | Resume
    | StopWaiting
    | Shutdown

  predicate In(s: State, c: nat, phase: Phase) {
    c in s.connections && s.connections[c].phase == phase
  }

  predicate Enabled(s: State, step: Step) {
    match step
    case Connect(c, _) => c !in s.connections
    case Submit(c, _, _) => In(s, c, AtSelect)
    case NotifyOne(c) => c in s.connections && s.connections[c].phase.Pushed?
    case Reply(c) => c in s.connections && s.connections[c].phase.Replying?
    case Receive(c) => In(s, c, AtSelect) && s.connections[c].next < |s.events|
    case Disconnect(c) =>
      c in s.connections && (s.connections[c].phase.AtSelect? || s.connections[c].phase.Replying?)
    case CheckShutdown => s.worker.Top?
    case Pop(_, _) => s.worker.Popping?
    case Emit => s.worker.Processing? && s.worker.script != []
    case Finish => s.worker.Processing? && s.worker.script == []
    case PollNotified => s.worker.FoundNothing?
    case Resume => s.worker.Woken?
    case StopWaiting => s.cancelled && (s.worker.FoundNothing? || s.worker.Parked? || s.worker.Woken?)
    case Shutdown => true
  }

  function DoSubmit(codecs: Codecs, s: State, c: nat, request: Request, limits: Limits): State
    requires In(s, c, AtSelect)
  {
    var connection := s.connections[c];
    var o := Handle(codecs, limits, connection.origin, request, s.queue);
    if o.response.Refused? then
      s.(queue := o.queue,
         connections := s.connections[c := connection.(sent := connection.sent + [Answered(o.response, [])])])
    else
      HandleIsAllOrNothing(codecs, limits, connection.origin, request, s.queue);
      s.(queue := o.queue,
         connections := s.connections[c := connection.(phase := Pushed(o.response, o.acceptedIds))],
         accepted := s.accepted + o.queue.pending[|s.queue.pending|..],
         submitter := s.submitter + (map id | id in o.acceptedIds :: c))
  }

  /** A waiting worker is woken; otherwise at most one permit is kept. */
  function DoNotifyOne(s: State, c: nat): State
    requires c in s.connections && s.connections[c].phase.Pushed?
  {
    var connection := s.connections[c];
    var t := s.(connections := s.connections[c := connection.(
      phase := Replying(connection.phase.response, connection.phase.jobIds))]);
    if s.worker.Parked? then t.(worker := Woken) else t.(permit := true)
  }

  function DoReply(s: State, c: nat): State
    requires c in s.connections && s.connections[c].phase.Replying?
  {
    var connection := s.connections[c];
    var ids := connection.phase.jobIds;
    s.(connections := s.connections[c := connection.(
      phase := AtSelect,
      acceptedIds := connection.acceptedIds + (set id | id in ids),
      sent := connection.sent + [Answered(connection.phase.response, ids)])])
  }

  /** A receiver that fell too far behind skips to the oldest kept event. */
  function Received(connection: Connection, events: seq<Event>): Connection
    requires connection.next < |events|
  {
    if |events| - connection.next > STATUS_EVENT_CAPACITY then
      connection.(next := |events| - STATUS_EVENT_CAPACITY, lagged := true)
    else
      var event := events[connection.next];
      connection.(
        next := connection.next + 1,
        sent := if event.jobId in connection.acceptedIds then connection.sent + [Forwarded(event)] else connection.sent)
  }

  /** The client went away, or a send failed after the ids had been bound. */
  function Departed(connection: Connection): Connection {
    var ids := if connection.phase.Replying? then connection.phase.jobIds else [];
    connection.(phase := Gone, acceptedIds := connection.acceptedIds + (set id | id in ids))
  }

  function DoPop(codecs: Codecs, s: State, config: Config, world: World): State {
    var (next, queue) := PopNext(s.queue);
    match next
    case None => s.(worker := FoundNothing)
    case Some(job) => s.(queue := queue, worker := Processing(job, [], Trace(codecs, job, config, world)))
  }

  function Do(codecs: Codecs, s: State, step: Step): State
    requires Enabled(s, step)
  {
    match step
    case Connect(c, origin) =>
      s.(connections := s.connections[c := Connection(origin, AtSelect, {}, |s.events|, false, [])])
    case Submit(c, request, limits) => DoSubmit(codecs, s, c, request, limits)
    case NotifyOne(c) => DoNotifyOne(s, c)
    case Reply(c) => DoReply(s, c)
    case Receive(c) => s.(connections := s.connections[c := Received(s.connections[c], s.events)])
    case Disconnect(c) => s.(connections := s.connections[c := Departed(s.connections[c])])
    case CheckShutdown => s.(worker := if s.cancelled then Exited else Popping)
    case Pop(config, world) => DoPop(codecs, s, config, world)
    case Emit =>
      var event := s.worker.script[0];
      s.(events := s.events + [event],
         worker := s.worker.(emitted := s.worker.emitted + [event], script := s.worker.script[1..]))
    case Finish => s.(finished := s.finished + [s.worker.job], worker := Top)
    case PollNotified => if s.permit then s.(permit := false, worker := Top) else s.(worker := Parked)
    case Resume => s.(worker := Top)
    case StopWaiting => s.(worker := Exited)
    case Shutdown => s.(cancelled := true)
  }

  /** One execution of the agent from its start. */
  ghost predicate IsRun(codecs: Codecs, states: seq<State>, steps: seq<Step>) {
    && |states| == |steps| + 1
    && states[0] == INITIAL
    && forall i :: 0 <= i < |steps| ==> Enabled(states[i], steps[i]) && states[i + 1] == Do(codecs, states[i], steps[i])
  }

  function InFlight(worker: WorkerAt): seq<QueuedJob> {
    if worker.Processing? then [worker.job] else []
  }

  function PhaseIds(phase: Phase): set<string> {
    if phase.Pushed? || phase.Replying? then set id | id in phase.jobIds else {}
  }

  /** The job ids that belong to a connection, whether or not it has got round to binding them. */
  function Bound(connection: Connection): set<string> {
    connection.acceptedIds + PhaseIds(connection.phase)
  }
}
