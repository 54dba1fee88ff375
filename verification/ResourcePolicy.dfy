/**
 Which address, if any, a page being rendered may be connected to.

 A page may reach public HTTP(S) resources, and in addition the one loopback origin that its
 job carries. The address that was approved is the address to connect to, so a name is
 looked up once and all of its addresses must be public.
 */
module ResourcePolicy {
  import opened Common
  import opened Protocol
  import opened Text
  import opened IpAddress

  datatype Socket = Socket(ip: Ip, port: nat)

  /** What the resolver answers for a name and a port; `None` is a failed lookup. */
  type Lookup = (string, nat) -> Option<seq<Socket>>

  datatype Target = Target(authority: string, address: Socket)

  function NormalizedHost(host: string): string {
    Lower(TrimEndChar(host, '.'))
  }

  function Authority(url: Url, host: string): string {
    var shown := if ':' in host then "[" + host + "]" else host;
    if url.port.Some? then shown + ":" + Digits(url.port.value) else shown
  }

  /** 127.0.0.1 and ::1, however the host text spells them. */
  predicate IsExactLoopbackHost(parsers: IpParsers, host: string) {
    parsers.ip(host) == Some(LOOPBACK4) || parsers.ip(host) == Some(LOOPBACK6)
  }

  /** `None` means that the resource is blocked. */
  function ApprovedTarget(authority: string, address: Socket, isAllowedLoopback: bool): Option<Target> {
    if IsPublic(address.ip) || (isAllowedLoopback && IsLoopback(address.ip)) then Some(Target(authority, address))
    else None
  }

  function ResolveTarget(parsers: IpParsers, lookup: Lookup, url: Url, allowed: Option<Origin>): Option<Target> {
    if !IsHttp(url) || url.host.None? then None
    else
      var host := url.host.value;
      var name := NormalizedHost(host);
      if name == "" || name == "localhost" then None
      else if PortOrKnownDefault(url).None? then None
      else
        var port := PortOrKnownDefault(url).value;
        var authority := Authority(url, host);
        var isAllowedLoopback := allowed.Some? && OriginOf(url) == allowed && IsExactLoopbackHost(parsers, host);
        if parsers.ip(name).Some? then
          ApprovedTarget(authority, Socket(parsers.ip(name).value, port), isAllowedLoopback)
        else
          match lookup(name, port)
          case None => None
          case Some(addresses) =>
            if addresses == [] then None
            else if exists a :: a in addresses && !IsPublic(a.ip) then None
            else ApprovedTarget(authority, addresses[0], false)
  }

  // ----- What an approval means -----

  /** Every address that the host of a URL stands for: a literal, or whatever the lookup says. */
  function Candidates(parsers: IpParsers, lookup: Lookup, url: Url): seq<Socket> {
    if !IsHttp(url) || url.host.None? then []
    else
      var name := NormalizedHost(url.host.value);
      var port := PortOrKnownDefault(url).value;
      if parsers.ip(name).Some? then [Socket(parsers.ip(name).value, port)]
      else if lookup(name, port).Some? then lookup(name, port).value
      else []
  }

  predicate AllPublic(addresses: seq<Socket>) {
    forall a :: a in addresses ==> IsPublic(a.ip)
  }

  /** The one exception: an address literal on the loopback, in exactly the allowed origin. */
  predicate IsAllowedLoopback(parsers: IpParsers, url: Url, allowed: Option<Origin>) {
    && allowed.Some? && OriginOf(url) == allowed
    && url.host.Some?
    && IsExactLoopbackHost(parsers, url.host.value)
    && parsers.ip(NormalizedHost(url.host.value)).Some?
    && IsLoopback(parsers.ip(NormalizedHost(url.host.value)).value)
  }

  predicate IsBlockedName(url: Url) {
    url.host.Some? && (NormalizedHost(url.host.value) == "" || NormalizedHost(url.host.value) == "localhost")
  }

  /**
   A URL is approved exactly when its host stands for at least one address, is not a blocked
   name, and either all its addresses are public or it is the allowed loopback origin; the
   approved address is then the first.
   */
  lemma ApprovalIsExact(parsers: IpParsers, lookup: Lookup, url: Url, allowed: Option<Origin>)
    ensures var addresses := Candidates(parsers, lookup, url);
            var target := ResolveTarget(parsers, lookup, url, allowed);
            && (target.Some? <==>
                  && addresses != [] && !IsBlockedName(url)
                  && (AllPublic(addresses) || IsAllowedLoopback(parsers, url, allowed)))
            && (target.Some? ==> target.value.address == addresses[0])
  {
    hide IsPublic, IsLoopback, NormalizedHost;
    var addresses := Candidates(parsers, lookup, url);
    if IsHttp(url) && url.host.Some? {
      var ip := parsers.ip(NormalizedHost(url.host.value));
      if ip.Some? {
        assert addresses[0].ip == ip.value;
        assert AllPublic(addresses) <==> IsPublic(ip.value);
      } else if addresses != [] {
        assert addresses[0] in addresses;
      }
    }
  }

  /** A page on 127.0.0.1 is approved for the job that carries its origin, and for no other. */
  lemma LoopbackNeedsItsOrigin(parsers: IpParsers, lookup: Lookup, url: Url, allowed: Option<Origin>)
    requires parsers.ip("127.0.0.1") == Some(LOOPBACK4)
    requires IsHttp(url) && url.host == Some("127.0.0.1")
    ensures ResolveTarget(parsers, lookup, url, allowed).Some? <==> OriginOf(url) == allowed
  {
    assert NormalizedHost("127.0.0.1") == "127.0.0.1";
    LoopbackIsNotPublic(LOOPBACK4);
    ApprovalIsExact(parsers, lookup, url, allowed);
    assert Candidates(parsers, lookup, url)[0].ip == LOOPBACK4;
    assert Candidates(parsers, lookup, url)[0] in Candidates(parsers, lookup, url);
  }

  /** A host that is a name never leads to a loopback address, whatever origin is allowed. */
  lemma NamesNeverReachLoopback(parsers: IpParsers, lookup: Lookup, url: Url, allowed: Option<Origin>)
    requires url.host.Some? && parsers.ip(NormalizedHost(url.host.value)).None?
    requires ResolveTarget(parsers, lookup, url, allowed).Some?
    ensures !IsLoopback(ResolveTarget(parsers, lookup, url, allowed).value.address.ip)
    ensures AllPublic(Candidates(parsers, lookup, url))
  {
    hide IsPublic, IsLoopback;
    ApprovalIsExact(parsers, lookup, url, allowed);
    var address := ResolveTarget(parsers, lookup, url, allowed).value.address;
    assert address in Candidates(parsers, lookup, url);
    if IsLoopback(address.ip) {
      LoopbackIsNotPublic(address.ip);
    }
  }

  // ----- Spellings of a host -----

  function Dots(n: nat): string {
    if n == 0 then "" else Dots(n - 1) + "."
  }

  lemma {:induction false} TrimmedDots(s: string, n: nat)
    ensures TrimEndChar(s + Dots(n), '.') == TrimEndChar(s, '.')
  {
    if n == 0 {
      assert s + Dots(0) == s;
    } else {
      assert (s + Dots(n))[..|s + Dots(n)| - 1] == s + Dots(n - 1);
      TrimmedDots(s, n - 1);
    }
  }

  lemma {:induction false} LoweringKeepsDots(s: string)
    ensures Lower(TrimEndChar(s, '.')) == TrimEndChar(Lower(s), '.')
  {
    if s != "" && s[|s| - 1] == '.' {
      LoweringKeepsDots(s[..|s| - 1]);
      assert Lower(s)[..|s| - 1] == Lower(s[..|s| - 1]);
    }
  }

  /** Neither letter case nor dots at the end make a difference to which host is meant. */
  lemma SpellingsOfOneHost(host: string, name: string, dots: nat)
    requires Lower(host) == name + Dots(dots) && (name == "" || name[|name| - 1] != '.')
    ensures NormalizedHost(host) == name
  {
    LoweringKeepsDots(host);
    TrimmedDots(name, dots);
  }

  /** So "localhost" is blocked in every spelling, whatever it would be looked up as. */
  lemma LocalhostIsBlocked(parsers: IpParsers, lookup: Lookup, url: Url, allowed: Option<Origin>, dots: nat)
    requires url.host.Some? && Lower(url.host.value) == "localhost" + Dots(dots)
    ensures ResolveTarget(parsers, lookup, url, allowed).None?
  {
    SpellingsOfOneHost(url.host.value, "localhost", dots);
  }
}
