/**
 Exactly how the proxy answers a request, which requests it counts as the page's own, and so
 exactly which blocks a rendering hears of.
 */
module ProxyAnswers {
  import opened Common
  import opened Protocol
  import opened IpAddress
  import opened ResourcePolicy
  import opened Proxy

  // ----- Answers -----

  /** The authority a plain request is for: that of its target, else its Host header. */
  predicate IsFor(request: Request, authority: string) {
    request.authority == Some(authority) || (request.authority.None? && request.host == Some(authority))
  }

  /** A plain request for this path of the inline page's own address. */
  predicate IsForInline(inline: Option<string>, request: Request, path: string) {
    && !request.isConnect && inline.Some? && IsFor(request, inline.value)
    && request.path == path && request.query.None?
  }

  /** A tunnel to the inline page's own address. */
  predicate IsTunnelToInline(inline: Option<string>, request: Request) {
    && request.isConnect && inline.Some? && request.authority.Some?
    && request.authority.value in {inline.value, inline.value + ":80"}
  }

  /** The URL, as a text, that a request asks the proxy to reach. */
  predicate Names(request: Request, text: string) {
    if request.isConnect then
      request.authority.Some? && text == "https://" + request.authority.value + "/"
    else if request.hasScheme then text == request.uri
    else
      var path := if request.pathAndQuery.Some? then request.pathAndQuery.value else "/";
      || (request.authority.Some? && text == "http://" + request.authority.value + path)
      || (request.authority.None? && request.host.Some? && text == "http://" + request.host.value + path)
  }

  /** The request leads out to this URL; a plain request only over plain HTTP. */
  predicate LeadsTo(lib: Library, inline: Option<string>, request: Request, text: string, url: Url) {
    && !IsForInline(inline, request, "/") && !IsForInline(inline, request, "/favicon.ico")
    && !IsTunnelToInline(inline, request)
    && Names(request, text) && lib.parse(text) == Some(url)
    && (!request.isConnect ==> url.scheme == "http")
  }

  /** The policy's verdict on a URL: it stands for addresses, all public or the allowed loopback. */
  predicate MayBeReached(lib: Library, allowed: Option<Origin>, lookup: Lookup, url: Url) {
    && Candidates(lib.parsers, lookup, url) != [] && !IsBlockedName(url)
    && (AllPublic(Candidates(lib.parsers, lookup, url)) || IsAllowedLoopback(lib.parsers, url, allowed))
  }

  /**
   A request that leads out is blocked, by the name of its URL, exactly when the policy says so;
   otherwise the first address of its host is connected to, and a failure after that is no block.
   */
  lemma OutgoingAnswer(
    lib: Library, inline: Option<string>, allowed: Option<Origin>, request: Request, network: Network,
    text: string, url: Url)
    requires LeadsTo(lib, inline, request, text, url)
    ensures var answer := Respond(lib, inline, allowed, request, network);
            if MayBeReached(lib, allowed, network.lookup, url) then
              && answer.attempt == Some(Attempt(url, Candidates(lib.parsers, network.lookup, url)[0]))
              && answer.reply == (if !network.connects then Denied(IoError)
                                  else if request.isConnect then Tunnel
                                  else if network.forwards then Forwarded
                                  else Denied(IoError))
            else answer == Answer(Denied(BlockedResource(lib.show(text))), None)
  {
    hide ResolveTarget, Candidates, IsBlockedName, AllPublic, IsAllowedLoopback;
    ApprovalIsExact(lib.parsers, network.lookup, url, allowed);
  }

  /** Every other request is answered by the proxy itself, without any connection and without a block. */
  lemma OwnAnswer(
    lib: Library, inline: Option<string>, allowed: Option<Origin>, request: Request, network: Network)
    requires forall text, url :: !LeadsTo(lib, inline, request, text, url)
    ensures Respond(lib, inline, allowed, request, network)
            == Answer(if IsForInline(inline, request, "/") then InlinePage
                      else if IsForInline(inline, request, "/favicon.ico") then NoContent
                      else if IsTunnelToInline(inline, request) then InlineTunnel
                      else Denied(InvalidRequest), None)
  {
    hide ResolveTarget;
    var text := if request.isConnect && request.authority.Some? then "https://" + request.authority.value + "/"
                else if RequestUrlText(request).Some? then RequestUrlText(request).value
                else "";
    if lib.parse(text).Some? {
      assert !LeadsTo(lib, inline, request, text, lib.parse(text).value);
    }
  }

  // ----- Which blocks are the page's -----

  /** Same scheme, host and port, a missing port being that of the scheme. */
  predicate SamePlace(a: Url, b: Url) {
    && KnownDefaultPort(a.scheme).Some? && a.scheme == b.scheme
    && a.host.Some? && a.host == b.host
    && PortOrKnownDefault(a) == PortOrKnownDefault(b)
  }

  /** Its Referer or its Origin header names the place of the page. */
  ghost predicate SentByPage(parse: UrlParser, page: Url, request: Request) {
    exists header :: header in [request.referer, request.origin] && header.Some?
                     && parse(header.value).Some? && SamePlace(parse(header.value).value, page)
  }

  lemma AttributedExactly(parse: UrlParser, pageUrl: Option<Url>, request: Request)
    ensures BelongsToPage(parse, pageUrl, request) <==> pageUrl.Some? && SentByPage(parse, pageUrl.value, request)
  {
    if pageUrl.Some? {
      var headers := [request.referer, request.origin];
      assert headers[0] in headers && headers[1] in headers;
      assert forall header :: header in headers ==>
          (HeaderIsFromPage(parse, header, pageUrl.value)
           <==> header.Some? && parse(header.value).Some? && SamePlace(parse(header.value).value, pageUrl.value));
    }
  }

  /** A request that is being served arrived once, and was attributed by the page URL of that moment. */
  lemma {:induction false} InFlightArrived(lib: Library, config: Config, steps: seq<Step>, id: nat) returns (i: nat)
    requires IsRun(lib, config, START, steps) && id in Run(lib, config, START, steps).inFlight
    ensures i < |steps| && steps[i].Arrive? && steps[i].id == id
    ensures forall j :: i < j < |steps| && steps[j].Finish? ==> steps[j].id != id
    ensures IsRun(lib, config, START, steps[..i])
    ensures var page := Run(lib, config, START, steps[..i]).tracker.pageUrl;
            Run(lib, config, START, steps).inFlight[id]
            == InFlight(steps[i].request, BelongsToPage(lib.parse, page, steps[i].request))
    decreases |steps|
  {
    hide Respond, BelongsToPage, PageBlock;
    i := 0;
    if steps != [] {
      var n := |steps| - 1;
      var front := steps[..n];
      assert steps == front + [steps[n]];
      RunSplits(lib, config, START, front, [steps[n]]);
      var s := Run(lib, config, START, front);
      OneStep(lib, config, s, steps[n]);
      if steps[n].Arrive? && steps[n].id == id {
        i := n;
      } else {
        i := InFlightArrived(lib, config, front, id);
        assert front[..i] == steps[..i];
      }
    }
  }

  /**
   A request that is answered at the end of a run is reported as a block of the page if and only if
   a page had been set when it arrived, one of its headers named the place of that page, and it
   leads out to a URL that the policy does not let it reach.
   */
  lemma BlockedExactly(lib: Library, config: Config, steps: seq<Step>, id: nat, network: Network, resource: string)
    returns (i: nat)
    requires IsRun(lib, config, START, steps)
    requires Enabled(Run(lib, config, START, steps), Finish(id, network))
    ensures i < |steps| && steps[i].Arrive? && steps[i].id == id
    ensures forall j :: i < j < |steps| && steps[j].Finish? ==> steps[j].id != id
    ensures IsRun(lib, config, START, steps[..i])
    ensures var page := Run(lib, config, START, steps[..i]).tracker.pageUrl;
            var request := steps[i].request;
            PageBlock(lib, config, Run(lib, config, START, steps), Finish(id, network)) == Some(resource)
            <==> && page.Some? && SentByPage(lib.parse, page.value, request)
                 && exists text, url :: LeadsTo(lib, config.inline, request, text, url)
                                        && !MayBeReached(lib, config.allowed, network.lookup, url)
                                        && resource == lib.show(text)
  {
    hide Respond, BelongsToPage, LeadsTo, MayBeReached, SentByPage, Run;
    i := InFlightArrived(lib, config, steps, id);
    var request := steps[i].request;
    AttributedExactly(lib.parse, Run(lib, config, START, steps[..i]).tracker.pageUrl, request);
    if text, url :| LeadsTo(lib, config.inline, request, text, url) {
      OutgoingAnswer(lib, config.inline, config.allowed, request, network, text, url);
      forall other, there | LeadsTo(lib, config.inline, request, other, there) ensures other == text && there == url {
        OneDestination(lib, config.inline, request, text, url, other, there);
      }
    } else {
      OwnAnswer(lib, config.inline, config.allowed, request, network);
    }
  }

  lemma OneDestination(
    lib: Library, inline: Option<string>, request: Request, text: string, url: Url, other: string, there: Url)
    requires LeadsTo(lib, inline, request, text, url) && LeadsTo(lib, inline, request, other, there)
    ensures other == text && there == url
  {
  }
}
