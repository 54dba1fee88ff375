# YinShu print agent: a verified model

YinShu is a local print server. Web pages connect to it over WebSocket and submit print jobs or
batches of jobs; accepted jobs wait in an in-memory queue that a single worker drains. The
worker downloads, converts or renders a document, hands it to the system's print spooler, and
broadcasts status events, which flow back to the connection that submitted the job and into a
history store. HTML jobs are rendered by a headless browser behind a filtering proxy. A command
line tool talks to the agent over a framed local stream and moves settings between
installations.

This project models that behaviour in Dafny 4.11 and proves what the agent promises.
`dafny verify dfyconfig.toml` checks everything.

## How the model is organised

| file | part of the agent |
|---|---|
| `Protocol.dfy` | jobs, URLs and origins, the field checks of `validate_for_acceptance` |
| `Queue.dfy` | `QueueState`: the pending queue and the job and batch ids seen |
| `Server.dfy` | what one `print` or `print_batch` message does, and the loopback origin rule |
| `Worker.dfy` | `process_job` and everything below it, and the grammar of status histories |
| `WorkerOutcome.dfy` | when a job is printed, which error ends it, its whole history |
| `PrintAgent.dfy` | the running agent as a step system |
| `AgentQueue.dfy`, `AgentDelivery.dfy` | invariants of every run |
| `AgentTheorems.dfy`, `AgentDrain.dfy`, `AgentShutdown.dfy` | what follows for whole runs: safety, progress of the queue, stopping |
| `AgentReceiver.dfy` | the exact account of one connection: replies, and what lag costs |
| `AgentCalls.dfy`, `AgentSpooler.dfy` | what a run asks of the print system, and the spooler over a run |
| `AgentHistory.dfy` | what the history store says after a run, recordings included |
| `LaunchGate.dfy` | the global browser launch gate, as a step system |
| `RenderControl.dfy` | deadline, cancellation and the driver's stages |
| `IpAddress.dfy`, `ResourcePolicy.dfy`, `Proxy.dfy`, `ProxyAnswers.dfy` | which addresses a rendered page may reach, and which blocks are its own |
| `Rendering.dfy` | a whole rendering: driver, proxy and result |
| `CupsSubmission.dfy` | handing a job to CUPS and taking it back |
| `MediaSize.dfy`, `TextLayout.dfy`, `Text.dfy` | paper sizes, text wrapping, fit to page, string operations |
| `TaskHistory.dfy` | the history store and its materialised summary rows |
| `IpWhitelist.dfy`, `ConfigTransfer.dfy` | client addresses; export, merge, preview and save of settings |
| `IpcFrame.dfy` | the framing of local messages |

Code that updates state in place is a class whose methods are proved against functions of the
old state; pure code is functions; concurrent code is a step system in which each critical
section is one step and all interleavings are runs. Results of libraries, of the network, of
the spooler and of other programs are parameters, so every statement holds for all of them.

## Main results

* **Queue.** In every state of every run the accepted jobs are the finished ones, then the one
  in flight, then the pending ones; ids are unique and batches contiguous; a worker that sleeps
  over a non-empty queue is about to be woken; the work left after the last submission is
  bounded for every schedule, and when no task can move, everything accepted is finished. After
  a shutdown request the worker finishes the job in hand, takes at most one more, and exits
  within nine steps, however long the queue.
* **Worker.** A job is printed if and only if its options are known and its document was
  obtained; otherwise it ends with the error of the first check that fails. Its whole status
  history and everything it asks for are settled by the job, the configuration and the answers.
* **Status events.** Each finished job has exactly one history of the documented shape. Over a
  whole run the print system is asked at most once per job id, and Submitted is reported exactly
  when it said yes; with CUPS, the live spool jobs of a run are those of the jobs reported as
  Submitted. Each message is answered once and in order. A connection receives, in order and
  after the acceptance reply, statuses of its own jobs only, and all of them but those that the
  broadcast no longer kept when the connection really fell behind.
* **Acceptance and origins.** A message is accepted exactly when it keeps the batch limit, its
  jobs are well formed, the origin rule holds and its ids are new; what fails first decides the
  code of the refusal. No accepted job can reach the worker's complaints about malformed jobs,
  and each is downloaded, rendered and printed with its own settings, else the defaults. An
  attached loopback origin is the origin of the job's own URL and of the page that submitted it;
  from there to the socket, a page under rendering reaches loopback addresses only within that
  origin.
* **Launch gate and deadline.** At most one browser launch runs at a time, also after its caller
  gave up; a caller that gave up at the gate never launches; a passed deadline ends a call within
  four of its own steps, and its answer is true. Stages start in order and never behind a deadline
  or a cancellation that was seen; and the driver gives up only when another thread cancelled, a
  launch timed out, or the next requests no longer fit. A page counts as rendered exactly when
  the driver succeeded in time and nothing was blocked for the page since it navigated, and it is
  settled which requests are the page's and which of them are blocked.
* **Agreement of forms.** Summary rows equal a definition over the log of recorded events. When
  every event is recorded, a finished job is in the history exactly when the history was not
  cleared since its last event, and then with a closed row, whatever the store held before and
  whatever else is recorded in it. Printed paper sizes read back exactly unless a length is
  negative; a byte stream decodes to a list of messages exactly when it consists of their
  frames; normalised address lists decide as the trimmed entries do.

Three places where the code and its description differ, and the model follows the code:

* The comment on `html_local_origin_for_job` (crates/core/src/queue.rs:142) speaks of HTML jobs
  only. The code looks at the job's URL and never at its format, so a PDF job can carry an
  origin; `AttachmentExact` and `PdfJobCanCarryOrigin` say so.
* The configuration reference (openwiki/domain/configuration.md:29) calls `default_copies` the
  default number of copies. The worker never reads it and prints one copy of a job that names no
  number (crates/runtime/src/queue.rs:360). `DefaultCopiesIsNeverRead` says that the setting
  changes nothing, `CopiesAsPromisedExactly` that the promise is kept exactly when the job names
  a number or the setting is one, and `TwoConfiguredCopiesPrintOnce` gives a job for which it is
  not.
* `EffectivePaper::validate` (crates/core/src/protocol.rs:126) is there to ensure positive paper
  dimensions, but acceptance does not call it, so a PDF job may ask for a negative size. Its media
  token then denotes another size or none: `SpoolerGetsRequestedSize` says that the spooler gets
  the requested size exactly when neither length is negative, and `NegativeWidthIsPrintedPositive`
  gives a job whose width of minus 60 millimetres is read as plus 60.

## Model

| member | source | states |
|---|---|---|
| Queue.QueueState.AcceptQueuedJob | crates/core/src/queue.rs:46-55 | accepts a job unless its HTML source is invalid or its id was seen; a refusal changes nothing, an acceptance appends the job and remembers its id |
| Queue.QueueState.AcceptJobWithLocalOrigin | crates/core/src/queue.rs:68-82 | the same for a single job together with the origin rule |
| Queue.QueueState.AcceptBatchWithLocalOrigin | crates/core/src/queue.rs:84-129 | the loops over sources and ids accept a batch exactly when all sources, the batch id and all job ids are fine and distinct, and then append all entries in order; otherwise the queue is as before |
| Queue.QueueState.Pop | crates/core/src/queue.rs:132-134 | removes and returns the oldest pending job, if any |
| Protocol.AcceptanceIsExact | crates/core/src/protocol.rs:157-277 | the early returns accept exactly the jobs that name one document in the way their format calls for, within the limits, and nothing their format has no use for |
| Protocol.TooLargeExactly | crates/core/src/protocol.rs:157-277 | data beyond the limit are what is complained about exactly when nothing else is wrong, but for the waiting time of inline HTML, which comes last |
| Server.FirstRefusal | crates/runtime/src/server.rs:431-438 | a message passes field validation exactly when every one of its jobs does |
| Server.HandleClientText | crates/runtime/src/server.rs:375-466 | the handler's effect on the shared queue, its reply and the ids bound to the connection, for every branch; it accepts exactly the acceptable messages |
| Server.HandleIsAllOrNothing | crates/runtime/src/server.rs:375-466 | a message is refused without any effect, or adds exactly one entry per job, in order, with fresh distinct ids, every job validated |
| Server.AnsweredExactly | crates/runtime/src/server.rs:375-466 | a message is accepted if and only if it keeps the batch limit, every job is well formed, the origin rule holds and all ids are new and distinct; otherwise the first of these that fails, in this order, decides the code; request id and job or batch id are in the reply |
| Server.OriginRuleExactly | crates/runtime/src/server.rs:489-521 | the origin rule passes if and only if the connection comes from the origin of every page on the local machine that the message opens |
| Server.AdmittedPassesQueueCheck | crates/core/src/queue.rs:158-171 | a job that passed acceptance passes the queue's own HTML check |
| Server.QueueNeverRefusesSource | crates/runtime/src/server.rs:394-466 | the queue never answers a validated message with its invalid-message error |
| Server.NewEntriesAreDisciplined | crates/runtime/src/server.rs:489-521 | an attached origin is the job's and the connection's own; HTML on 127.0.0.1 always carries it |
| Server.MismatchRefusesWholeBatch | crates/runtime/src/server.rs:503-518 | one page on a foreign loopback origin refuses the whole message and leaves the queue unchanged |
| Server.AttachmentExact | crates/core/src/queue.rs:142-156 | exactly which jobs carry an origin, whatever their format |
| Server.PdfJobCanCarryOrigin | crates/core/src/queue.rs:142-156 | a concrete batch whose PDF job carries one, against the comment |
| Worker.Desk.PushLog | crates/runtime/src/queue.rs:610-653 | emits exactly one event with the job's ids |
| Worker.Desk.SubmitAndTrack | crates/runtime/src/queue.rs:289-338 | one backend call, announced before, followed by Submitted and the tracking result exactly when it succeeded |
| Worker.Desk.PrintRawJob | crates/runtime/src/queue.rs:135-194 | a raw job is checked against the current size limit before anything is printed |
| Worker.Desk.PrintHtmlJob | crates/runtime/src/queue.rs:197-255 | rendering comes before any announcement and any backend call |
| Worker.Desk.PrintDownloadedFile | crates/runtime/src/queue.rs:258-286 | conversion, its announcement, then submission; a failed preparation emits nothing |
| Worker.Desk.ProcessJobInner | crates/runtime/src/queue.rs:104-132 | the dispatch over formats and the order of option resolution, download and printing; when that reaches the printer and how it ends otherwise is stated in `WorkerOutcome` |
| Worker.Desk.ProcessJob | crates/runtime/src/queue.rs:95-101 | the whole emitted trace of one job and everything it asks of the outside world |
| Worker.ContinuationCounts | crates/runtime/src/queue.rs:95-338 | from every place in a history at most one Failed and one Submitted can still follow, and how many statuses |
| Worker.GrammarConsequences | crates/runtime/src/queue.rs:95-338 | every well-formed history begins with Queued, has two to six statuses, fails at most once, is submitted at most once and ends in a terminal status |
| Worker.TraceIsGrammatical | crates/runtime/src/queue.rs:95-338 | for every job, configuration and outcome of the outside world the trace is Queued, perhaps Downloading, then Failed, or one or two Printing followed by Failed or by Submitted and at most one tracking result |
| Worker.InnerIsAnnounced | crates/runtime/src/queue.rs:104-338 | on every path Submitted appears exactly when the backend was called and succeeded, and then processing succeeds |
| Worker.SubmissionIsTruthful | crates/runtime/src/queue.rs:95-338 | at most one backend call per job; Submitted exactly when it was made and succeeded; no call means Failed at the end |
| Worker.CallsFollowPlan | crates/runtime/src/queue.rs:104-393 | what the worker downloads, renders and prints, in order, and with which printer, paper, copies, origin and wait: the job's own settings, else the defaults, and one copy; nothing when these are not known, and the printer is reached exactly at the end of the plan |
| Worker.DefaultCopiesIsNeverRead | crates/runtime/src/queue.rs:349-371 | the configured number of copies changes nothing about any job, under any configuration and outside world |
| Worker.CopiesAsPromisedExactly | crates/runtime/src/queue.rs:360 | a printed job gets the documented number of copies exactly when it names a number itself or the configured number is one |
| Worker.TwoConfiguredCopiesPrintOnce | crates/runtime/src/queue.rs:360 | an accepted job that is printed once although two copies are configured |
| Worker.AcceptanceCoversWorker | crates/runtime/src/queue.rs:121-146 | an accepted job never reaches the invalid-message errors, nor the unsupported-format branch of the HTML path, under any later configuration |
| WorkerOutcome.PrintedExactly | crates/runtime/src/queue.rs:104-286 | for any job, the print system is asked if and only if the options are known and what is to be printed was obtained: downloaded, of the announced kind and converted; rendered; or decoded and within the limit in force now |
| WorkerOutcome.EndsAtFirstFailedCheck | crates/runtime/src/queue.rs:104-459 | the error that ends a job is that of the first check that fails, in the order of the code, and the job ends well exactly when none fails |
| WorkerOutcome.HistoryExactly | crates/runtime/src/queue.rs:95-338 | the whole status history, settled by the format, by whether the print system is reached, and by its answer and the tracking result |
| WorkerOutcome.EventsNameTheirJob | crates/runtime/src/queue.rs:95-101 | every event carries the ids of its job, batch and request, and a failed job's last message is its error |
| WorkerOutcome.CallsExactly | crates/runtime/src/queue.rs:104-286 | an accepted job with known options goes through its whole plan when its document was obtained, and otherwise stops after the first call, or before it for raw data |
| AgentQueue.SubmitEffect | crates/runtime/src/server.rs:375-466 | a submission step either only answers or appends one whole batch with fresh ids, all entries admitted and disciplined |
| AgentQueue.AppendKeepsConservation | crates/core/src/queue.rs:94-129 | appending keeps accepted == finished ++ in flight ++ pending, ids unique and batches contiguous |
| AgentQueue.AppendKeepsOwnership | crates/runtime/src/server.rs:394-466 | appending keeps every id bound to exactly the connection that submitted it |
| AgentQueue.AppendKeepsProvenance | crates/runtime/src/server.rs:489-521 | appending keeps every accepted job admitted and its origin that of its own submitter |
| AgentQueue.WorkerSteps | crates/runtime/src/queue.rs:75-92 | the worker only moves jobs from pending over in flight to finished |
| AgentQueue.ConnectionSteps | crates/runtime/src/server.rs:154-231 | replies, notifications, receptions and departures never touch the queue or anybody's ids |
| AgentQueue.StepKeepsHistory | crates/runtime/src/server.rs:154-231 | every step keeps conservation, ownership and provenance |
| AgentQueue.StepKeepsWakeUp | crates/runtime/src/queue.rs:75-92 | every step keeps: a worker at or in its wait over a non-empty queue has a permit stored or a producer between push and notify |
| AgentQueue.RunKeepsInvariant | crates/runtime/src/queue.rs:75-92 | all of these hold in every state of every run |
| AgentDelivery.BindingDelivers | crates/runtime/src/server.rs:185-200 | binding the ids and sending the reply keeps the account of what was delivered |
| AgentDelivery.ReceptionDelivers | crates/runtime/src/server.rs:202-230 | receiving an event, or being told of lag, keeps the forwarded events an in-order part of the connection's own, complete without lag |
| AgentDelivery.PushDelivers | crates/runtime/src/server.rs:394-414 | no event about a newly accepted id can already have passed the connection |
| AgentDelivery.StepKeepsDelivery | crates/runtime/src/server.rs:154-231 | every step keeps the delivery account of every connection, in which each forwarded status follows a reply that accepted its job |
| AgentDelivery.StepKeepsTraced | crates/runtime/src/queue.rs:75-101 | every step keeps: finished jobs have emitted a whole trace, the job in flight a first part of one, other jobs nothing |
| AgentDelivery.RunKeepsEverything | crates/runtime/src/queue.rs:75-92 | queue, wake-up, trace and delivery invariants in every state of every run |
| AgentTheorems.QueueIsConserved | crates/runtime/src/queue.rs:75-92 | accepted == taken ++ pending in every reachable state, no id twice, batches contiguous in processing order, nothing in flight after exit, exit only on shutdown; that shutdown leads to exit is stated in `AgentShutdown` |
| AgentShutdown.ShutdownStopsTheWorker | crates/runtime/src/queue.rs:75-92 | after a shutdown request at most one more job is taken, and only by a worker past its look at the signal; the worker takes at most nine more steps, however long the queue, and is stuck only when it has exited |
| AgentShutdown.ExitFinishesWhatWasTaken | crates/runtime/src/queue.rs:74-92 | a worker that exited has finished every job taken before the request, at most one more, and left the rest in the queue |
| AgentShutdown.TakenOnlyGrows | crates/runtime/src/queue.rs:75-92 | jobs stay taken, in the same order |
| AgentTheorems.HistoryOnlyGrows | crates/core/src/queue.rs:28-140 | accepted, finished and broadcast histories only ever grow at their end |
| AgentTheorems.NoWakeUpIsLost | crates/runtime/src/server.rs:394-401 | while the worker is parked over a non-empty queue, some producer's next step wakes it |
| AgentTheorems.HistoriesAreGrammatical | crates/runtime/src/queue.rs:75-101 | over whole runs each finished job has one complete history, and no id has more than one Submitted and one Failed event |
| AgentCalls.TakenOnce | crates/runtime/src/queue.rs:75-92 | an id that was not taken was asked nothing for; for one that was, the one step that took it decided all calls and the whole trace |
| AgentCalls.SubmittedOncePerId | crates/runtime/src/queue.rs:75-338 | over whole runs the print system is asked at most once per job id; an id with a Submitted event was asked for exactly once and the answer was yes, and for finished ids the converse holds as well |
| AgentSpooler.SpoolerMatchesEvents | crates/runtime/src/printing/cups.rs:162-285 | over whole runs with CUPS, whenever no job is in flight, the live spool jobs are those from before plus exactly those of the jobs with a Submitted event |
| AgentTheorems.StatusReachesOneConnection | crates/runtime/src/server.rs:529-544 | statuses of one job reach at most one connection, the one that submitted it |
| AgentTheorems.DeliveryIsPrivateAndOrdered | crates/runtime/src/server.rs:154-231 | what a connection forwards is an in-order part of the worker's events for its jobs, equal to it without lag, each after its acceptance reply |
| AgentTheorems.ClientSeesWholeHistory | crates/runtime/src/server.rs:154-231 | a client that kept up has seen each of its finished jobs from Queued to a terminal status |
| AgentReceiver.EveryMessageIsAnswered | crates/runtime/src/server.rs:154-231 | over whole runs each message of a connection is answered exactly once, in order, with what handling it came to; only the last answer may be under way, or lost with a departure |
| AgentReceiver.LagIsReal | crates/runtime/src/server.rs:202-230 | a connection is told of missed events only after more were waiting for it than the broadcast keeps |
| AgentReceiver.LagCostsOnlyTheOldest | crates/runtime/src/server.rs:202-230 | an overflow costs exactly the events that are no longer kept: from the oldest kept one on, until the next overflow, every event about the connection's jobs is forwarded in order |
| AgentReceiver.KeepingUpMissesNothing | crates/runtime/src/server.rs:154-231 | a connection that keeps up forwards exactly the events about its own jobs since it connected |
| AgentTheorems.OriginsBelongToSubmitter | crates/runtime/src/server.rs:489-521 | the origin rule holds for every job accepted in any run |
| AgentTheorems.WorkerNeverSeesMalformedJob | crates/runtime/src/queue.rs:104-132 | no job in the worker's hands can end in a malformed-job error |
| AgentDrain.WorkShrinks | crates/runtime/src/queue.rs:75-92 | every step of the worker and of a notifying producer uses up work |
| AgentDrain.OthersAddNoWork | crates/runtime/src/server.rs:154-231 | connecting, replying, receiving and leaving add none |
| AgentDrain.WorkIsBounded | crates/runtime/src/queue.rs:75-92 | in every interleaving the work after the last submission is bounded by what was left then |
| AgentDrain.IdleMeansDrained | crates/runtime/src/queue.rs:75-92 | when no task can do anything and no shutdown was requested, everything accepted is finished and the worker is parked |
| AgentDrain.QueueCanAlwaysDrain | crates/runtime/src/queue.rs:75-92 | from every reachable state without shutdown some schedule of work steps alone finishes everything accepted |
| LaunchGate.StepKeepsFlag | crates/runtime/src/html/browser.rs:411-440 | the flag stays set exactly while one guard is live |
| LaunchGate.StepKeepsWakeUp | crates/runtime/src/html/browser.rs:434-440 | an open gate with a parked waiter keeps having an awake one |
| LaunchGate.StepKeepsHonesty | crates/runtime/src/html/browser.rs:413-431 | timeouts are only ever reported after the deadline |
| LaunchGate.RunKeepsInvariant | crates/runtime/src/html/browser.rs:409-474 | all gate invariants in every state of every run |
| LaunchGate.AtMostOneLaunch | crates/runtime/src/html/browser.rs:409-474 | at most one launch closure runs at a time, also after its caller timed out, and the flag is set exactly while a guard is live |
| LaunchGate.GivingUpAtTheGateIsFinal | crates/runtime/src/html/browser.rs:413-431 | a caller that gave up at the gate never runs its closure later |
| LaunchGate.TimeoutMeansDeadlinePassed | crates/runtime/src/html/browser.rs:444-474 | a reported timeout means that the caller's deadline has passed |
| LaunchGate.DeadlineIsFromArrival | crates/runtime/src/html/browser.rs:444-452 | a caller's deadline is its timeout counted from its arrival, at all later times |
| LaunchGate.NobodyParksLate | crates/runtime/src/html/browser.rs:416-428 | a caller goes to sleep only at a closed gate, before its deadline, and not after a wait that ran out |
| LaunchGate.DeadlineEndsTheCall | crates/runtime/src/html/browser.rs:413-474 | past its deadline a caller is done within four of its own steps, whatever the others do, and always has one to take until then |
| LaunchGate.NobodySpawnsLate | crates/runtime/src/html/browser.rs:454-464 | the launch thread is spawned only before the deadline |
| LaunchGate.AnswersAreTrueAndFinal | crates/runtime/src/html/browser.rs:466-474 | a caller's answer never changes; it is a browser exactly when the own launch reported one, a failure only when spawning or the launch failed, a timeout only after the deadline |
| LaunchGate.OpenGateIsTaken | crates/runtime/src/html/browser.rs:434-440 | with an open gate some awake waiter takes it as soon as it locks |
| LaunchGate.ClosedGateMovesOn | crates/runtime/src/html/browser.rs:444-474 | the owner of a closed gate always has a next step, at most four from releasing it |
| RenderControl.Control.CheckActive | crates/runtime/src/html/browser.rs:332-338 | passes only before the deadline and with the flag not yet raised when read; fails only when the flag was up before, another thread raised it, or the deadline has come |
| RenderControl.Control.Remaining | crates/runtime/src/html/browser.rs:340-348 | a positive remainder that ends exactly at the deadline; fails for the same causes only |
| RenderControl.Control.BeforeCdpOperations | crates/runtime/src/html/browser.rs:351-361 | opens only when all coming requests fit before the deadline, and refuses only when they do not, or when the flag was up before or another thread raised it |
| RenderControl.Control.Wait | crates/runtime/src/html/browser.rs:363-380 | terminates, and returns normally only after the full duration whenever the clock can hold the deadline plus the duration (else at the latest at the deadline); fails only for a raised flag or at the deadline |
| RenderControl.Control.Cancel | crates/runtime/src/html/browser.rs:328-330 | a raised flag stays raised |
| RenderControl.GroupKeepsWithinBudget | crates/runtime/src/html/browser.rs:351-361 | requests that each keep the per-request bound together keep the budget of the gate |
| RenderControl.RunAdmittedGroup | crates/runtime/src/html/browser.rs:351-361 | a stage starts behind its gate, or not at all when the flag was raised or its requests no longer fit; its requests, when each keeps the per-request bound, are over by the deadline, or later by no more than the time lost before and between them |
| RenderControl.RunStage | crates/runtime/src/html/browser.rs:568-594 | the same for every stage of the driver, with its own success or failure |
| RenderControl.LaunchFirstAvailable | crates/runtime/src/html/browser.rs:477-528 | candidates are tried in order; succeeds exactly when the last attempt did; unavailable only after all failed; a timeout only when an attempt reported one, the flag was raised or the deadline has come |
| RenderControl.OpenPage | crates/runtime/src/html/browser.rs:568-579 | the stages up to the finished navigation, in order, each behind its gate and the success of those before; an error names the stage that failed, a timeout has its cause; the navigation requests are over by the deadline and before the next stage |
| RenderControl.ExportPage | crates/runtime/src/html/browser.rs:580-596 | the export starts only after the full settling time, its requests are over by the deadline, and the file is written only after them; an error names the stage that failed, a timeout has its cause |
| RenderControl.Render | crates/runtime/src/html/browser.rs:554-597 | the started stages are a first part of the fixed order, all of them on success, none after a cancellation that came first; a timeout that no launch attempt reported means that another thread raised the flag or that the next gate's requests no longer fitted; any other error is that of the stage that started last |
| IpAddress.PrefixIsFirstBits | crates/runtime/src/html/resource_policy.rs:311-317 | matching a network is agreement of the first prefix bits of the whole address |
| IpAddress.PublicIpv4ByOctets | crates/runtime/src/html/resource_policy.rs:319-335 | the blocked IPv4 table, octet by octet |
| IpAddress.PublicIpv6ByGroups | crates/runtime/src/html/resource_policy.rs:297-337 | the blocked IPv6 addresses, group by group, including mapped, multicast and link-local ones |
| IpAddress.LoopbackIsNotPublic | crates/runtime/src/html/resource_policy.rs:297-309 | no loopback address is public |
| ResourcePolicy.ApprovalIsExact | crates/runtime/src/html/resource_policy.rs:213-283 | a URL is approved exactly when its host has addresses, is no blocked name, and all addresses are public or it is the allowed loopback origin; the first address is the approved one |
| ResourcePolicy.LoopbackNeedsItsOrigin | crates/runtime/src/html/resource_policy.rs:229-240 | a URL on 127.0.0.1 is approved for the job that carries its origin and for no other |
| ResourcePolicy.NamesNeverReachLoopback | crates/runtime/src/html/resource_policy.rs:242-257 | a name that is looked up never leads to loopback, and all its addresses were public |
| ResourcePolicy.SpellingsOfOneHost | crates/runtime/src/html/resource_policy.rs:213-228 | letter case and dots at the end make no difference to which host is meant |
| ResourcePolicy.LocalhostIsBlocked | crates/runtime/src/html/resource_policy.rs:213-228 | localhost is blocked in every such spelling, whatever it would be looked up as |
| Proxy.RejectedResourceTracker.SetPageUrl | crates/runtime/src/html/proxy.rs:47-51 | replaces the page URL and nothing else |
| Proxy.RejectedResourceTracker.Record | crates/runtime/src/html/proxy.rs:67-74 | keeps the first block that belongs to the page |
| Proxy.RejectedResourceTracker.Clear | crates/runtime/src/html/proxy.rs:76-80 | forgets the block and keeps the page URL |
| Proxy.FilteringProxy.ResolveAndConnect | crates/runtime/src/html/proxy.rs:411-415 | asks the policy first and connects to the approved address only |
| Proxy.FilteringProxy.Serve | crates/runtime/src/html/proxy.rs:332-447 | the answer to one request and the connection it makes, for CONNECT, inline page, favicon and plain requests |
| Proxy.FilteringProxy.Handle | crates/runtime/src/html/proxy.rs:275-305 | serving one request alone is its arrival step followed by its answer step |
| Proxy.AnswerConnectsApproved | crates/runtime/src/html/proxy.rs:380-415 | the address of any connection is approved and is the first of what the host stands for; for a name all addresses were public |
| Proxy.ConnectsOnlyToApproved | crates/runtime/src/html/proxy.rs:275-447 | over every run of interleaved requests all connections go to approved addresses |
| Proxy.RenderingStaysAtHome | crates/runtime/src/queue.rs:219-225 | while an accepted job is rendered, loopback connections are made only for URLs in the origin of the page that submitted it |
| Proxy.TrackerHoldsFirstBlock | crates/runtime/src/html/proxy.rs:67-85 | without a clear the tracker holds the first block reported for the page |
| Proxy.RenderReportsFirstBlock | crates/runtime/src/html/browser.rs:685-694 | a render succeeds only if nothing was blocked for the page since the clear before navigation, and otherwise names the first block |
| ProxyAnswers.OutgoingAnswer | crates/runtime/src/html/proxy.rs:332-480 | a request that leads out is blocked, by the name of its URL, exactly when the policy says so; otherwise the first address of its host is connected to, and a later failure is no block |
| ProxyAnswers.OwnAnswer | crates/runtime/src/html/proxy.rs:275-365 | every other request is answered by the proxy itself, without a connection and without a block: inline page, icon, inline tunnel, or invalid |
| ProxyAnswers.AttributedExactly | crates/runtime/src/html/proxy.rs:53-65 | a request is the page's exactly when its Referer or Origin header names the scheme, host and port of the page |
| ProxyAnswers.InFlightArrived | crates/runtime/src/html/proxy.rs:275-281 | a request being served arrived once and was attributed by the page URL of that moment |
| ProxyAnswers.BlockedExactly | crates/runtime/src/html/proxy.rs:275-311 | over runs of interleaved requests, an answer is reported as a block of the page if and only if a page was set at the arrival, a header named its place, and the request leads out to a URL that the policy refuses |
| Rendering.NavigatesOnce | crates/runtime/src/html/browser.rs:571-575 | the driver navigates, and with it clears the tracker, at most once, and exactly when it got that far |
| Rendering.RenderHtml | crates/runtime/src/html/browser.rs:666-696 | the order of the verdicts: the driver's failure with its cause, then a block, then the deadline or another thread's cancellation; a page is rendered only before the deadline, and never after a cancellation that came first |
| Rendering.RenderedExactly | crates/runtime/src/html/browser.rs:554-696 | over a whole rendering with interleaved requests, the page is rendered exactly when the driver succeeded in time and nothing was blocked for it since it navigated; otherwise the first such block is named |
| CupsSubmission.AnnouncedIdIsParsed | crates/runtime/src/printing/cups.rs:335-340 | the id that `lp` announces is the id that is parsed |
| CupsSubmission.Spooler.FinalizeCupsSubmission | crates/runtime/src/printing/cups.rs:270-285 | turns an accepted submission into an offline error exactly when the printer is unavailable, the id known and the cancellation successful |
| CupsSubmission.Spooler.Print | crates/runtime/src/printing/cups.rs:162-238 | accepted exactly when `lp` ran, succeeded and was not cancelled afterwards; a spool job is live afterwards exactly then |
| CupsSubmission.RefusedBecause | crates/runtime/src/printing/cups.rs:162-285 | which refusal means what: the printer is unknown, it is or went offline and the job was taken back, or a command failed |
| CupsSubmission.StatusIsTruthful | crates/runtime/src/queue.rs:303-316 | Submitted is reported exactly when a spool job stays live; a job that ends without it leaves the spooler as it was |
| TaskHistory.TaskHistoryStore.constructor | crates/runtime/src/task_history.rs:44-51 | opening a store purges the removed source once |
| TaskHistory.TaskHistoryStore.Record | crates/runtime/src/task_history.rs:58-111 | appends the event under the next id and inserts or updates the job's row |
| TaskHistory.TaskHistoryStore.ClearAll | crates/runtime/src/task_history.rs:144-150 | empties both tables and keeps the id counter |
| TaskHistory.TaskHistoryStore.Purge | crates/runtime/src/task_history.rs:152-162 | deletes the events and rows of jobs with the removed source, and no others |
| TaskHistory.UpsertIsSummary | crates/runtime/src/task_history.rs:72-108 | inserting or updating a row gives the summary of all inputs including the new one |
| TaskHistory.RecordAgrees | crates/runtime/src/task_history.rs:58-111 | recording keeps both tables in agreement with the log |
| TaskHistory.PurgeAgrees | crates/runtime/src/task_history.rs:152-162 | purging keeps both tables in agreement with the surviving log |
| TaskHistory.SummaryEqualsLog | crates/runtime/src/task_history.rs:58-162 | after any operations every row equals the summary of its job's inputs and the events list the log, with increasing ids |
| TaskHistory.TablesNameSameJobs | crates/runtime/src/task_history.rs:152-162 | both tables always name the same jobs, and purging removes exactly the jobs whose row has the removed source |
| TaskHistory.WholeHistoryClosesRow | crates/core/src/activity.rs:62-67 | a row is terminal and finished at its last event when a complete history was recorded last, whatever was recorded for the id before |
| TaskHistory.ConsistentExactly | crates/runtime/src/task_history.rs:72-108 | a row has a finishing time exactly for a terminal status if and only if its last status is terminal or none ever was |
| TaskHistory.RecordingIsConsistentExactly | crates/runtime/src/task_history.rs:58-111 | the same, decided at each recording from the status and the row before it |
| TaskHistory.ReusedIdIsInconsistent | crates/runtime/src/task_history.rs:58-111 | an id used again after a failure gives a row that is both queued and finished |
| TaskHistory.TerminalStaysTerminal | crates/runtime/src/queue.rs:95-338 | within one history of a job a terminal status is followed by terminal ones only |
| TaskHistory.OneHistoryIsConsistent | crates/runtime/src/task_history.rs:58-111 | so at every moment of a job's one history its row is consistent |
| AgentHistory.RecordedStatuses | crates/runtime/src/queue.rs:630-652 | recordings that mirror events carry the statuses of the events, in order |
| AgentHistory.FinishedJobsAreClosed | crates/runtime/src/queue.rs:610-653 | after any run and any recordings, clears and purges, for this id or others: when the last inputs that count for a finished job are its events, its row has its last broadcast status, which is terminal, and was finished when that was recorded |
| AgentHistory.UndisturbedRecordingsCount | crates/runtime/src/task_history.rs:58-162 | after any past of the store, a job's own recordings count, behind all or none of what an earlier use of the id left, unless a clear or a purge that concerns it follows its first one |
| AgentHistory.RunKeepsRecord | crates/runtime/src/queue.rs:610-653 | with recording as part of emitting, in every run and among other uses of the store the recordings of a job mirror its events |
| AgentHistory.RunShows | crates/runtime/src/queue.rs:610-653 | in every run, whatever the store held and whatever others do to it under other ids, the inputs that count for a job end with its last event, or were all cleared since |
| AgentHistory.SharedStoreClosesFinishedJobs | crates/runtime/src/test_print.rs:111-145 | in a store with any past, shared with test prints and clears, a finished job is shown exactly when the history was not cleared since its last event, and then with its last broadcast status and a closed row |
| MediaSize.FormatShape | crates/runtime/src/printing/mod.rs:163-172 | zero trimming keeps all integer digits and drops only needless decimals |
| MediaSize.ParsesBack | crates/runtime/src/printing/cups.rs:658-677 | a printed length reads back as exactly that length |
| MediaSize.CustomTokenHasNoName | crates/runtime/src/printing/cups.rs:579-626 | no token built from two lengths is mistaken for a named paper |
| MediaSize.PrintedTokenReads | crates/runtime/src/printing/cups.rs:554-677 | what every printed token is read as: the sign of the width is lost, and a negative height makes it unreadable |
| MediaSize.MediaRoundTrip | crates/runtime/src/printing/mod.rs:138-140 | for every size in hundredths of a millimetre the printed token parses to exactly that size if and only if neither length is negative |
| MediaSize.ListedPaperRoundTrip | crates/runtime/src/printing/cups.rs:449-577 | every paper that a printer lists has no negative length, and its media token parses to its size |
| MediaSize.NamedPaperReads | crates/runtime/src/printing/cups.rs:579-626 | a token with a paper's name among its parts is that paper, and no earlier name of the table takes its place |
| MediaSize.PrinterListIsRead | crates/runtime/src/printing/cups.rs:449-551 | a printer's line of page sizes is listed in order, one paper for each token that can be read, the default's star left aside |
| MediaSize.ListOfSizesReadsBack | crates/runtime/src/printing/cups.rs:449-577 | any list of sizes, printed as a printer's choices, reads back as that list |
| MediaSize.SpoolerGetsRequestedSize | crates/runtime/src/printing/cups.rs:693-700 | whatever papers the printer lists, the token for `lp` denotes the size that the job asked for if and only if neither length is negative |
| MediaSize.NegativeWidthIsPrintedPositive | crates/core/src/protocol.rs:157-277 | an accepted job whose width of minus 60 millimetres reaches the spooler as plus 60 |
| TextLayout.PdfSafe | crates/runtime/src/document.rs:568-578 | replaces exactly the unprintable characters, one for one |
| TextLayout.FindCut | crates/runtime/src/document.rs:547-558 | cuts at the last space of the window's second half if there is one, else at its end; without a limit the window is the rest |
| TextLayout.NextLine | crates/runtime/src/document.rs:559-560 | takes a line of at most `max_chars`, broken off at the cut, and loses nothing but spaces |
| TextLayout.WrapSafeText | crates/runtime/src/document.rs:544-565 | the wrapping loop terminates with lines that fit and keep all letters in order |
| TextLayout.WrapPdfText | crates/runtime/src/document.rs:538-566 | at least one line, none too long, every line broken off at the last space of its window's second half or else at its end, the same letters, and the bound on the number of lines |
| TextLayout.FitIsLargest | crates/runtime/src/document.rs:69-93 | the rectangle lies on the page, is centred, keeps the ratio, touches the page and is the largest such |
| IpWhitelist.NormalizeAllowedIps | crates/core/src/ip_whitelist.rs:8-22 | the loop computes the normal form |
| IpWhitelist.NormalizedIsNormalForm | crates/core/src/ip_whitelist.rs:8-22 | loopback first, then every other trimmed entry exactly once in order of first appearance |
| IpWhitelist.NormalizedTwice | crates/core/src/ip_whitelist.rs:8-22 | normalising is idempotent |
| IpWhitelist.NormalizedDecision | crates/core/src/ip_whitelist.rs:52-71 | the normalised list admits exactly loopback clients and those that some trimmed entry names |
| IpWhitelist.TrimmedDecisionUnchanged | crates/core/src/ip_whitelist.rs:52-60 | on trimmed entries normalising changes no decision |
| IpWhitelist.NormalizationAdmitsMore | crates/core/src/ip_whitelist.rs:52-71 | on other entries it only ever admits more clients, and exactly which |
| IpWhitelist.UntrimmedEntryChangesDecision | crates/core/src/ip_whitelist.rs:63-71 | an entry with a stray space admits nobody before and its client after |
| IpWhitelist.NetworkSeparates | crates/core/src/ip_whitelist.rs:35-43 | a network with a non-empty prefix never contains both an address and its opposite |
| IpWhitelist.NetworkHoldsExactly | crates/core/src/ip_whitelist.rs:63-71 | a network holds exactly the addresses of its kind whose first bits agree with its base |
| IpWhitelist.EntryAdmitsExactly | crates/core/src/ip_whitelist.rs:63-71 | an entry that reads as an address admits that client only, one that reads as a network exactly those with its first bits, any other nobody |
| IpWhitelist.AcceptedEntriesExactly | crates/core/src/ip_whitelist.rs:25-49 | an entry may be saved if and only if it is a particular address or a network with a non-empty prefix, and none of the spellings of everyone |
| IpWhitelist.AcceptedEntryIsNotEveryone | crates/core/src/ip_whitelist.rs:25-49 | no acceptable entry admits every client |
| ConfigTransfer.CheckOrigins | crates/cli/src/config_transfer.rs:289-295 | reports the first invalid origin, or that all are valid |
| ConfigTransfer.CheckIps | crates/cli/src/config_transfer.rs:298-301 | reports the first invalid address entry, or that all are valid |
| ConfigTransfer.MergePayload | crates/cli/src/config_transfer.rs:270-306 | succeeds exactly on a known payload with a non-zero port and valid entries; what it carries replaces, the rest stays normalised; which error comes first, naming the first invalid entry |
| ConfigTransfer.PreviewPayload | crates/cli/src/config_transfer.rs:309-362 | succeeds exactly when the merge does |
| ConfigTransfer.PreviewShowsTheMerge | crates/cli/src/config_transfer.rs:309-362 | the items follow the order of the settings, each with what is and what the merge makes of it; a setting is missing exactly when the payload does not carry it, and then stays as it is, normalised |
| ConfigTransfer.PreviewRepeatsNothing | crates/cli/src/config_transfer.rs:309-362 | no two items are about the same setting |
| ConfigTransfer.AgentState.SaveConfig | crates/runtime/src/state.rs:113-130 | stores the normalised configuration exactly when all entries are valid and it could be written; otherwise nothing changes |
| ConfigTransfer.MergeTwice | crates/cli/src/config_transfer.rs:270-306 | merging a payload again changes nothing |
| ConfigTransfer.TransferMovesChosenSettings | crates/cli/src/config_transfer.rs:173-198 | exporting and merging moves the chosen settings, addresses normalised, and nothing else |
| ConfigTransfer.ExportIsMergeable | crates/cli/src/config_transfer.rs:173-198 | an export can be merged exactly when its chosen settings are valid |
| ConfigTransfer.DisjointMergesCommute | crates/cli/src/config_transfer.rs:270-306 | payloads with different settings can be merged in either order |
| ConfigTransfer.NormalizedStaysValid | crates/core/src/config.rs:247-252 | normalising keeps a valid address list valid |
| ConfigTransfer.MergedStaysSavable | crates/runtime/src/state.rs:113-130 | merging into a configuration fit to be saved leaves it fit to be saved, unchanged by saving |
| IpcFrame.Stream.WriteFrame | crates/cli/src/client.rs:130-148 | appends exactly one frame, or nothing when the payload is too large |
| IpcFrame.Stream.ReadFrame | crates/cli/src/client.rs:151-169 | takes exactly one frame off the stream, or fails |
| IpcFrame.BigEndianRoundTrip | crates/cli/src/client.rs:141-144 | four bytes carry every 32-bit length |
| IpcFrame.FirstByteWeighsMost | crates/cli/src/client.rs:141-144 | lengths are ordered as their bytes are, read from the first on, so the first byte is the most significant |
| IpcFrame.FrameRoundTrip | crates/cli/src/client.rs:130-169 | every frame that the writer accepts is read back with the rest of the stream untouched; the 32-bit length never truncates |
| IpcFrame.ReadFrameWasWritten | crates/cli/src/client.rs:151-169 | whatever the reader accepts is a frame that the writer could have written |
| IpcFrame.StreamIsItsFrames | crates/cli/src/client.rs:130-169 | a stream decodes to a list exactly when it is the frames of that list, nothing left over |
| IpcFrame.CutFrameNeverDecodes | crates/cli/src/client.rs:151-169 | a strict first part of a frame never decodes |
| IpcFrame.BrokenStreamEnds | crates/cli/src/client.rs:151-169 | a stream that breaks off inside a frame ends with an error, whatever came before |

## Left out

- URL parsing, base64, address parsing and resolving: libraries, parameters of the model.
- Origins as strings: the agent compares serialized origins; the model compares the origins themselves, since serialization does not confuse two tuple origins. Origins of `blob:` URLs are left out.
- IPv6 loopback spelling: the host text "::1" is compared as the code does; whether the URL library ever yields it is not part of this model.
- Floating point: lengths are exact hundredths of a millimetre or reals; rounding of binary fractions, and ties broken by it, is not modelled. A layout length is never infinite.
- Other client messages: printer lists, printer details and queue listings change nothing and are left out.
- `print_lock`: test prints take it as well and may hold the worker up; test prints are not part of the runs of the agent, and waiting for the lock is not modelled.
- LogStore: the in-memory log ring is not modelled, only the broadcast and the history store.
- History ordering by timestamp text and the listing queries: history facts are stated by recording order.
- A failing history write: it is logged and ignored by the agent; the store is modelled on successful transactions, and each event as recorded together with its broadcast.
- Temporary files: their clean-up after a job is not modelled.
- Windows printing, SumatraPDF, COM conversion and tracking by polling: foreign programs, nondeterministic results of the worker.
- The spooler: that a failed `lp` creates no job, that a successful `cancel` removes the job it names, and that `lp` names the job it created are taken from CUPS.
- CUPS availability texts: how printer states and reasons are read is not modelled, only the verdict.
- The outer timeout of the renderer: it appears as a cancellation that may happen at any moment.
- The clock: time may pass and the flag may be raised between any two actions of the driver (`Elapse`); the time budget of opening a tab is taken at its gate.
- Proxy bytes: headers sent upstream, tunnelled data and the inline page's body are not modelled.
- Configuration file and memory under concurrent saves: the two writes are separate steps and agreement between them is not claimed.
- Encryption, key derivation, hashing and JSON of configuration files: only the payload is modelled.
- Partial writes to the IPC stream: a write that fails midway is not modelled; a stream that ends early is.
- Desktop UI, tray, service management, command dispatch, diagnostics, printer port classification, trays, media types and resolutions: no hard state.
