/**
 The filtering proxy that a page under rendering talks to, and the render result that depends
 on what the proxy had to block.

 `Tracker` remembers the first block that belongs to the page. The proxy serves requests
 concurrently: a request arrives, is attributed to the page or not, and is answered at some
 later step, with other requests in between. A run is any sequence of such steps.
 */
module Proxy {
  import opened Common
  import opened Protocol
  import opened Queue
  import Server
  import opened IpAddress
  import opened ResourcePolicy

  /** URL reading, the spelling of a URL in error texts, and address reading are libraries. */
  datatype Library = Library(parse: UrlParser, show: string -> string, parsers: IpParsers)

  /** A proxy request; headers that are absent or no text are `None`. */
  datatype Request = Request(
    isConnect: bool,
    uri: string,
    hasScheme: bool,
    authority: Option<string>,
    path: string,
    query: Option<string>,
    pathAndQuery: Option<string>,
    host: Option<string>,
    referer: Option<string>,
    origin: Option<string>)

  /** What the network answers while one request is served. */
  datatype Network = Network(lookup: Lookup, connects: bool, forwards: bool)

  datatype ProxyError = BlockedResource(resource: string) | InvalidRequest | IoError

  datatype Reply = InlinePage | NoContent | InlineTunnel | Tunnel | Forwarded | Denied(error: ProxyError)

  /** A connection attempt and the URL it was made for. */
  datatype Attempt = Attempt(url: Url, address: Socket)

  datatype Answer = Answer(reply: Reply, attempt: Option<Attempt>)

  // ----- The tracker -----

  datatype Tracker = Tracker(rejected: Option<string>, pageUrl: Option<Url>)

  predicate HeaderIsFromPage(parse: UrlParser, header: Option<string>, page: Url) {
    header.Some? && parse(header.value).Some? && SameOrigin(parse(header.value).value, page)
  }

  function BelongsToPage(parse: UrlParser, pageUrl: Option<Url>, request: Request): bool {
    && pageUrl.Some?
    && (HeaderIsFromPage(parse, request.referer, pageUrl.value)
        || HeaderIsFromPage(parse, request.origin, pageUrl.value))
  }

  function Recorded(rejected: Option<string>, resource: string, belongsToPage: bool): Option<string> {
    if belongsToPage && rejected.None? then Some(resource) else rejected
  }

  class RejectedResourceTracker {
    var rejected: Option<string>
    var pageUrl: Option<Url>

    function Value(): Tracker
      reads this
    {
      Tracker(rejected, pageUrl)
    }

    constructor ()
      ensures Value() == Tracker(None, None)
    {
      rejected, pageUrl := None, None;
    }

    method SetPageUrl(url: Url)
      modifies this
      ensures Value() == old(Value()).(pageUrl := Some(url))
    {
      pageUrl := Some(url);
    }

    method Record(resource: string, belongsToPage: bool)
      modifies this
      ensures Value() == old(Value()).(rejected := Recorded(old(rejected), resource, belongsToPage))
    {
      if !belongsToPage {
        return;
      }
      if rejected.None? {
        rejected := Some(resource);
      }
    }

    method Clear()
      modifies this
      ensures Value() == old(Value()).(rejected := None)
    {
      rejected := None;
    }
  }

  // ----- Answering one request -----

  function RequestAuthority(request: Request): Option<string> {
    if request.authority.Some? then request.authority else request.host
  }

  predicate IsInline(inline: Option<string>, request: Request, path: string) {
    inline.Some? && RequestAuthority(request) == inline && request.path == path && request.query.None?
  }

  predicate IsInlineConnect(inline: Option<string>, authority: string) {
    inline.Some? && (authority == inline.value || authority == inline.value + ":80")
  }

  /** The absolute URL of a plain request, rebuilt from its parts when the request line has none. */
  function RequestUrlText(request: Request): Option<string> {
    if request.hasScheme then Some(request.uri)
    else if RequestAuthority(request).None? then None
    else
      Some("http://" + RequestAuthority(request).value
           + (if request.pathAndQuery.Some? then request.pathAndQuery.value else "/"))
  }

  function Refuse(error: ProxyError): Answer {
    Answer(Denied(error), None)
  }

  /** Policy first, then the connection to the approved address. */
  function ConnectApproved(
    lib: Library, allowed: Option<Origin>, text: string, url: Url, network: Network, success: Reply): Answer
  {
    match ResolveTarget(lib.parsers, network.lookup, url, allowed)
    case None => Refuse(BlockedResource(lib.show(text)))
    case Some(target) =>
      Answer(if network.connects then success else Denied(IoError), Some(Attempt(url, target.address)))
  }

  function HandleConnect(
    lib: Library, inline: Option<string>, allowed: Option<Origin>, request: Request, network: Network): Answer
  {
    if request.authority.None? then Refuse(InvalidRequest)
    else if IsInlineConnect(inline, request.authority.value) then Answer(InlineTunnel, None)
    else
      var text := "https://" + request.authority.value + "/";
      match lib.parse(text)
      case None => Refuse(InvalidRequest)
      case Some(url) => ConnectApproved(lib, allowed, text, url, network, Tunnel)
  }

  function HandleHttp(lib: Library, allowed: Option<Origin>, request: Request, network: Network): Answer {
    match RequestUrlText(request)
    case None => Refuse(InvalidRequest)
    case Some(text) =>
      match lib.parse(text)
      case None => Refuse(InvalidRequest)
      case Some(url) =>
        if url.scheme != "http" then Refuse(InvalidRequest)
        else
          ConnectApproved(lib, allowed, text, url, network, if network.forwards then Forwarded else Denied(IoError))
  }

  function Respond(
    lib: Library, inline: Option<string>, allowed: Option<Origin>, request: Request, network: Network): Answer
  {
    if request.isConnect then HandleConnect(lib, inline, allowed, request, network)
    else if IsInline(inline, request, "/") then Answer(InlinePage, None)
    else if IsInline(inline, request, "/favicon.ico") then Answer(NoContent, None)
    else HandleHttp(lib, allowed, request, network)
  }

  // ----- Concurrent requests -----

  datatype Config = Config(inline: Option<string>, allowed: Option<Origin>)

  /** A request being served, and whether it was attributed to the page on arrival. */
  datatype InFlight = InFlight(request: Request, belongsToPage: bool)

  datatype State = State(tracker: Tracker, inFlight: map<nat, InFlight>, attempts: seq<Attempt>)

  const START := State(Tracker(None, None), map[], [])

  datatype Step =
    | SetPage(url: Url)
    | ClearRejected
    | Arrive(id: nat, request: Request)
    | Finish(id: nat, network: Network)

  predicate Enabled(s: State, step: Step) {
    match step
    case Arrive(id, _) => id !in s.inFlight
    case Finish(id, _) => id in s.inFlight
    case _ => true
  }

  function AnswerOf(lib: Library, config: Config, s: State, step: Step): Answer
    requires step.Finish? && Enabled(s, step)
  {
    Respond(lib, config.inline, config.allowed, s.inFlight[step.id].request, step.network)
  }

  /** The block that a step reports for the page, if it reports one. */
  function PageBlock(lib: Library, config: Config, s: State, step: Step): Option<string>
    requires Enabled(s, step)
  {
    if !step.Finish? || !s.inFlight[step.id].belongsToPage then None
    else
      match AnswerOf(lib, config, s, step).reply
      case Denied(BlockedResource(resource)) => Some(resource)
      case _ => None
  }

  function Do(lib: Library, config: Config, s: State, step: Step): State
    requires Enabled(s, step)
  {
    match step
    case SetPage(url) => s.(tracker := s.tracker.(pageUrl := Some(url)))
    case ClearRejected => s.(tracker := s.tracker.(rejected := None))
    case Arrive(id, request) =>
      s.(inFlight := s.inFlight[id := InFlight(request, BelongsToPage(lib.parse, s.tracker.pageUrl, request))])
    case Finish(id, _) =>
      var answer := AnswerOf(lib, config, s, step);
      var block := PageBlock(lib, config, s, step);
      State(if block.Some? then s.tracker.(rejected := Recorded(s.tracker.rejected, block.value, true)) else s.tracker,
            s.inFlight - {id},
            if answer.attempt.Some? then s.attempts + [answer.attempt.value] else s.attempts)
  }

  predicate IsRun(lib: Library, config: Config, s: State, steps: seq<Step>)
    decreases |steps|
  {
    steps == [] || (Enabled(s, steps[0]) && IsRun(lib, config, Do(lib, config, s, steps[0]), steps[1..]))
  }

  function Run(lib: Library, config: Config, s: State, steps: seq<Step>): State
    requires IsRun(lib, config, s, steps)
    decreases |steps|
  {
    if steps == [] then s else Run(lib, config, Do(lib, config, s, steps[0]), steps[1..])
  }

  lemma {:induction false} RunSplits(
    lib: Library, config: Config, s: State, a: seq<Step>, b: seq<Step>)
    requires IsRun(lib, config, s, a + b)
    ensures IsRun(lib, config, s, a)
    ensures IsRun(lib, config, Run(lib, config, s, a), b)
    ensures Run(lib, config, s, a + b) == Run(lib, config, Run(lib, config, s, a), b)
    decreases |a|
  {
    hide Do, Enabled;
    if a == [] {
      assert a + b == b;
    } else {
      assert (a + b)[1..] == a[1..] + b;
      RunSplits(lib, config, Do(lib, config, s, a[0]), a[1..], b);
    }
  }

  lemma OneStep(lib: Library, config: Config, s: State, step: Step)
    requires IsRun(lib, config, s, [step])
    ensures Enabled(s, step) && Run(lib, config, s, [step]) == Do(lib, config, s, step)
  {
    hide Do;
    assert [step][1..] == [];
    assert Run(lib, config, Do(lib, config, s, step), []) == Do(lib, config, s, step);
  }

  /** All page blocks of a run, in the order they were reported. */
  function PageBlocks(lib: Library, config: Config, s: State, steps: seq<Step>): seq<string>
    requires IsRun(lib, config, s, steps)
    decreases |steps|
  {
    if steps == [] then []
    else
      var block := PageBlock(lib, config, s, steps[0]);
      (if block.Some? then [block.value] else []) + PageBlocks(lib, config, Do(lib, config, s, steps[0]), steps[1..])
  }

  /** The proxy itself, serving one request from arrival to answer. */
  class FilteringProxy {
    const inline: Option<string>
    const allowed: Option<Origin>
    const tracker: RejectedResourceTracker
    var attempts: seq<Attempt>

    constructor (inline: Option<string>, allowed: Option<Origin>)
      ensures this.inline == inline && this.allowed == allowed
      ensures fresh(tracker) && tracker.Value() == Tracker(None, None) && attempts == []
    {
      this.inline, this.allowed := inline, allowed;
      tracker := new RejectedResourceTracker();
      attempts := [];
    }

    function Value(): State
      reads this, tracker
    {
      State(tracker.Value(), map[], attempts)
    }

    method Connect(address: Socket, url: Url, network: Network) returns (ok: bool)
      modifies this`attempts
      ensures ok == network.connects
      ensures attempts == old(attempts) + [Attempt(url, address)]
    {
      attempts := attempts + [Attempt(url, address)];
      ok := network.connects;
    }

    method ResolveAndConnect(lib: Library, text: string, url: Url, network: Network, success: Reply)
      returns (reply: Reply)
      modifies this`attempts
      ensures var answer := ConnectApproved(lib, allowed, text, url, network, success);
              && reply == answer.reply
              && attempts == old(attempts) + (if answer.attempt.Some? then [answer.attempt.value] else [])
    {
      var target := ResolveTarget(lib.parsers, network.lookup, url, allowed);
      if target.None? {
        return Denied(BlockedResource(lib.show(text)));
      }
      var ok := Connect(target.value.address, url, network);
      return if ok then success else Denied(IoError);
    }

    method Serve(lib: Library, request: Request, network: Network) returns (reply: Reply)
      modifies this`attempts
      ensures var answer := Respond(lib, inline, allowed, request, network);
              && reply == answer.reply
              && attempts == old(attempts) + (if answer.attempt.Some? then [answer.attempt.value] else [])
    {
      if request.isConnect {
        if request.authority.None? {
          return Denied(InvalidRequest);
        }
        if IsInlineConnect(inline, request.authority.value) {
          return InlineTunnel;
        }
        var text := "https://" + request.authority.value + "/";
        var url := lib.parse(text);
        if url.None? {
          return Denied(InvalidRequest);
        }
        reply := ResolveAndConnect(lib, text, url.value, network, Tunnel);
      } else if IsInline(inline, request, "/") {
        reply := InlinePage;
      } else if IsInline(inline, request, "/favicon.ico") {
        reply := NoContent;
      } else {
        var text := RequestUrlText(request);
        if text.None? {
          return Denied(InvalidRequest);
        }
        var url := lib.parse(text.value);
        if url.None? || url.value.scheme != "http" {
          return Denied(InvalidRequest);
        }
        reply := ResolveAndConnect(lib, text.value, url.value, network,
                                   if network.forwards then Forwarded else Denied(IoError));
      }
    }

    /** Serving a request alone is its arrival followed by its answer. */
    method Handle(lib: Library, request: Request, network: Network) returns (reply: Reply)
      modifies this`attempts, tracker
      ensures IsRun(lib, Config(inline, allowed), old(Value()), [Arrive(0, request), Finish(0, network)])
      ensures Value() == Run(lib, Config(inline, allowed), old(Value()), [Arrive(0, request), Finish(0, network)])
      ensures reply == Respond(lib, inline, allowed, request, network).reply
    {
      ghost var config := Config(inline, allowed);
      ghost var before := Value();
      ghost var steps := [Arrive(0, request), Finish(0, network)];
      var belongsToPage := BelongsToPage(lib.parse, tracker.pageUrl, request);
      reply := Serve(lib, request, network);
      if reply.Denied? && reply.error.BlockedResource? {
        tracker.Record(reply.error.resource, belongsToPage);
      }
      AloneIsTwoSteps(lib, config, before, request, network);
    }
  }

  lemma AloneIsTwoSteps(lib: Library, config: Config, s: State, request: Request, network: Network)
    requires s.inFlight == map[]
    ensures var steps := [Arrive(0, request), Finish(0, network)];
            var answer := Respond(lib, config.inline, config.allowed, request, network);
            var belongs := BelongsToPage(lib.parse, s.tracker.pageUrl, request);
            && IsRun(lib, config, s, steps)
            && Run(lib, config, s, steps)
               == State(if answer.reply.Denied? && answer.reply.error.BlockedResource?
                        then s.tracker.(rejected := Recorded(s.tracker.rejected, answer.reply.error.resource, belongs))
                        else s.tracker,
                        map[],
                        if answer.attempt.Some? then s.attempts + [answer.attempt.value] else s.attempts)
  {
    hide Respond, BelongsToPage;
    var first, second := Arrive(0, request), Finish(0, network);
    var steps := [first, second];
    assert steps[1..] == [second] && steps[1..][1..] == [];
    var arrived := Do(lib, config, s, first);
    var finished := Do(lib, config, arrived, second);
    assert finished.inFlight == map[];
    assert IsRun(lib, config, finished, []);
    assert IsRun(lib, config, arrived, [second]);
    assert Run(lib, config, arrived, [second]) == Run(lib, config, finished, []) == finished;
    assert Run(lib, config, s, steps) == finished;
  }

  // ----- Every connection is approved -----

  /** Public, or loopback for a URL in exactly the one allowed origin. */
  predicate IsApproved(parsers: IpParsers, allowed: Option<Origin>, attempt: Attempt) {
    || IsPublic(attempt.address.ip)
    || (IsLoopback(attempt.address.ip) && IsAllowedLoopback(parsers, attempt.url, allowed))
  }

  predicate AllApproved(parsers: IpParsers, allowed: Option<Origin>, attempts: seq<Attempt>) {
    forall attempt :: attempt in attempts ==> IsApproved(parsers, allowed, attempt)
  }

  lemma AnswerConnectsApproved(
    lib: Library, inline: Option<string>, allowed: Option<Origin>, request: Request, network: Network)
    ensures var answer := Respond(lib, inline, allowed, request, network);
            answer.attempt.Some? ==>
              var attempt := answer.attempt.value;
              var addresses := Candidates(lib.parsers, network.lookup, attempt.url);
              && IsApproved(lib.parsers, allowed, attempt)
              && addresses != [] && attempt.address == addresses[0]
              && (lib.parsers.ip(NormalizedHost(attempt.url.host.value)).None? ==> AllPublic(addresses))
  {
    hide IsPublic, IsLoopback, NormalizedHost, ResolveTarget, IsAllowedLoopback;
    var answer := Respond(lib, inline, allowed, request, network);
    if answer.attempt.Some? {
      var url := answer.attempt.value.url;
      ApprovalIsExact(lib.parsers, network.lookup, url, allowed);
      var addresses := Candidates(lib.parsers, network.lookup, url);
      assert addresses[0] in addresses;
      if !AllPublic(addresses) {
        LiteralLoopback(lib.parsers, network.lookup, url, allowed);
      }
    }
  }

  lemma LiteralLoopback(parsers: IpParsers, lookup: Lookup, url: Url, allowed: Option<Origin>)
    requires IsAllowedLoopback(parsers, url, allowed) && Candidates(parsers, lookup, url) != []
    ensures parsers.ip(NormalizedHost(url.host.value)).Some?
    ensures IsLoopback(Candidates(parsers, lookup, url)[0].ip)
  {
  }

  /** Over every run, the proxy connects only to approved addresses. */
  lemma {:induction false} ConnectsOnlyToApproved(lib: Library, config: Config, s: State, steps: seq<Step>)
    requires IsRun(lib, config, s, steps)
    requires AllApproved(lib.parsers, config.allowed, s.attempts)
    ensures AllApproved(lib.parsers, config.allowed, Run(lib, config, s, steps).attempts)
    decreases |steps|
  {
    hide Respond, IsApproved, BelongsToPage;
    if steps != [] {
      var step := steps[0];
      if step.Finish? {
        AnswerConnectsApproved(lib, config.inline, config.allowed, s.inFlight[step.id].request, step.network);
      }
      ConnectsOnlyToApproved(lib, config, Do(lib, config, s, step), steps[1..]);
    }
  }

  /**
   From the connection to the socket: while a job that some connection had accepted is being
   rendered with the origin it carries, every loopback connection is made for a URL in the
   origin of the page that the submitting connection itself came from.
   */
  lemma RenderingStaysAtHome(
    codecs: Codecs, origin: Option<string>, queued: QueuedJob, lib: Library, config: Config, steps: seq<Step>)
    requires Server.OriginDiscipline(codecs.parseUrl, origin, queued)
    requires config.allowed == queued.localOrigin
    requires IsRun(lib, config, START, steps)
    ensures forall attempt :: attempt in Run(lib, config, START, steps).attempts ==>
              IsPublic(attempt.address.ip)
              || (IsLoopback(attempt.address.ip)
                  && Server.LoopbackClient(codecs.parseUrl, origin).Some?
                  && SameOrigin(attempt.url, Server.LoopbackClient(codecs.parseUrl, origin).value))
  {
    hide IsPublic, IsLoopback, Run, IsRun, Server.LoopbackClient, NormalizedHost;
    ConnectsOnlyToApproved(lib, config, START, steps);
    forall attempt | attempt in Run(lib, config, START, steps).attempts
      ensures IsApproved(lib.parsers, config.allowed, attempt)
    {
    }
  }

  // ----- What a render reports -----

  /** Without a clear in between, the tracker holds the first page block of the run. */
  lemma {:induction false} TrackerHoldsFirstBlock(lib: Library, config: Config, s: State, steps: seq<Step>)
    requires IsRun(lib, config, s, steps)
    requires forall i :: 0 <= i < |steps| ==> !steps[i].ClearRejected?
    ensures var blocks := PageBlocks(lib, config, s, steps);
            Run(lib, config, s, steps).tracker.rejected
            == if s.tracker.rejected.Some? then s.tracker.rejected
               else if blocks == [] then None
               else Some(blocks[0])
    decreases |steps|
  {
    hide Respond, BelongsToPage;
    if steps != [] {
      TrackerHoldsFirstBlock(lib, config, Do(lib, config, s, steps[0]), steps[1..]);
    }
  }

  datatype RenderOutcome = Rendered | DriverFailed | Blocked(resource: string) | Stopped

  /** The end of a rendering: the driver's own result, then the tracker, then the deadline. */
  function Conclude(driverOk: bool, rejected: Option<string>, active: bool): RenderOutcome {
    if !driverOk then DriverFailed
    else if rejected.Some? then Blocked(rejected.value)
    else if !active then Stopped
    else Rendered
  }

  /**
   The driver clears the tracker just before it navigates. Whatever happened earlier, a render
   succeeds only if no block has been reported for the page since, and otherwise it names the
   first one.
   */
  lemma RenderReportsFirstBlock(
    lib: Library, config: Config, s: State, since: seq<Step>, driverOk: bool, active: bool)
    requires IsRun(lib, config, Do(lib, config, s, ClearRejected), since)
    requires forall i :: 0 <= i < |since| ==> !since[i].ClearRejected?
    ensures var cleared := Do(lib, config, s, ClearRejected);
            var blocks := PageBlocks(lib, config, cleared, since);
            var outcome := Conclude(driverOk, Run(lib, config, cleared, since).tracker.rejected, active);
            && (outcome.Rendered? <==> driverOk && active && blocks == [])
            && (driverOk && blocks != [] ==> outcome == Blocked(blocks[0]))
  {
    TrackerHoldsFirstBlock(lib, config, Do(lib, config, s, ClearRejected), since);
  }
}
