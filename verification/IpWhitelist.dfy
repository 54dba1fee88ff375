/**
 The list of client addresses that may connect: how it is normalised, which entries are
 acceptable, and which clients it lets in.
 */
module IpWhitelist {
  import opened Common
  import opened IpAddress

  const REQUIRED_LOOPBACK_IP := "127.0.0.1"

  // ----- Normalisation -----

  function TrimAll(entries: seq<string>): (texts: seq<string>)
    ensures |texts| == |entries|
    ensures forall i :: 0 <= i < |entries| ==> texts[i] == Trim(entries[i])
  {
    seq(|entries|, i requires 0 <= i < |entries| => Trim(entries[i]))
  }

  /** One more text, unless it is blank or already there. */
  function WithText(list: seq<string>, text: string): seq<string> {
    if text == "" || text == REQUIRED_LOOPBACK_IP || text in list then list else list + [text]
  }

  function Collected(texts: seq<string>): seq<string> {
    if texts == [] then [REQUIRED_LOOPBACK_IP]
    else WithText(Collected(texts[..|texts| - 1]), texts[|texts| - 1])
  }

  function Normalized(entries: seq<string>): seq<string> {
    Collected(TrimAll(entries))
  }

  method Knows(list: seq<string>, text: string) returns (known: bool)
    ensures known <==> text in list
  {
    known := false;
    for k := 0 to |list|
      invariant known <==> text in list[..k]
    {
      known := known || list[k] == text;
    }
    assert list[..|list|] == list;
  }

  method NormalizeAllowedIps(entries: seq<string>) returns (normalized: seq<string>)
    ensures normalized == Normalized(entries)
  {
    hide Trim;
    normalized := [REQUIRED_LOOPBACK_IP];
    ghost var texts := TrimAll(entries);
    for n := 0 to |entries|
      invariant normalized == Collected(texts[..n])
    {
      var entry := Trim(entries[n]);
      assert texts[..n + 1][..n] == texts[..n];
      if entry == "" || entry == REQUIRED_LOOPBACK_IP {
        continue;
      }
      var known := Knows(normalized, entry);
      if !known {
        normalized := normalized + [entry];
      }
    }
    assert texts[..|entries|] == texts;
  }

  predicate NoDuplicates(list: seq<string>) {
    forall i, j :: 0 <= i < j < |list| ==> list[i] != list[j]
  }

  /** The first place where `text` occurs, or the number of texts when it does not. */
  function FirstIndex(texts: seq<string>, text: string): (i: nat)
    ensures i <= |texts|
    ensures i < |texts| <==> text in texts
    ensures i < |texts| ==> texts[i] == text
  {
    if texts == [] || texts[0] == text then 0 else 1 + FirstIndex(texts[1..], text)
  }

  /** Loopback first, then each further text once, in the order of first appearance. */
  ghost predicate IsNormalFormOf(list: seq<string>, texts: seq<string>) {
    && list != [] && list[0] == REQUIRED_LOOPBACK_IP
    && NoDuplicates(list)
    && (forall text :: text in list <==> text == REQUIRED_LOOPBACK_IP || (text != "" && text in texts))
    && (forall i, j :: 1 <= i < j < |list| ==> FirstIndex(texts, list[i]) < FirstIndex(texts, list[j]))
  }

  lemma {:induction false} FirstIndexAppend(texts: seq<string>, last: string, text: string)
    ensures FirstIndex(texts + [last], text)
            == if text in texts then FirstIndex(texts, text)
               else if last == text then |texts|
               else |texts| + 1
  {
    if texts != [] {
      FirstIndexAppend(texts[1..], last, text);
      assert (texts + [last])[1..] == texts[1..] + [last];
      assert text in texts <==> texts[0] == text || text in texts[1..];
    } else {
      assert (texts + [last])[1..] == [];
    }
  }

  lemma {:induction false} CollectedIsNormalForm(texts: seq<string>)
    ensures IsNormalFormOf(Collected(texts), texts)
  {
    if texts != [] {
      var before, last := texts[..|texts| - 1], texts[|texts| - 1];
      CollectedIsNormalForm(before);
      assert before + [last] == texts;
      AddingKeepsNormalForm(Collected(before), before, last);
    }
  }

  lemma AddingKeepsNormalForm(list: seq<string>, texts: seq<string>, last: string)
    requires IsNormalFormOf(list, texts)
    ensures IsNormalFormOf(WithText(list, last), texts + [last])
  {
    hide FirstIndex;
    var added := WithText(list, last);
    forall i, j | 1 <= i < j < |added|
      ensures FirstIndex(texts + [last], added[i]) < FirstIndex(texts + [last], added[j])
    {
      FirstIndexAppend(texts, last, added[i]);
      FirstIndexAppend(texts, last, added[j]);
      assert added[i] in list && added[i] != list[0];
      if j < |list| {
        assert added[j] in list && added[j] != list[0];
        assert FirstIndex(texts, list[i]) < FirstIndex(texts, list[j]);
      }
    }
  }

  /** Nothing lost, nothing added, nothing reordered, nothing repeated. */
  lemma NormalizedIsNormalForm(entries: seq<string>)
    ensures IsNormalFormOf(Normalized(entries), TrimAll(entries))
  {
    CollectedIsNormalForm(TrimAll(entries));
  }

  lemma {:induction false} NormalFormIsFixed(list: seq<string>, n: nat)
    requires 1 <= n <= |list| && list[0] == REQUIRED_LOOPBACK_IP && NoDuplicates(list) && "" !in list
    ensures Collected(list[..n]) == list[..n]
    decreases n
  {
    assert list[..n][..n - 1] == list[..n - 1];
    if n == 1 {
      assert list[..1] == [REQUIRED_LOOPBACK_IP];
      assert Collected(list[..0]) == [REQUIRED_LOOPBACK_IP];
    } else {
      NormalFormIsFixed(list, n - 1);
      assert list[n - 1] !in list[..n - 1];
      assert list[..n] == list[..n - 1] + [list[n - 1]];
    }
  }

  /** Normalising twice is normalising once. */
  lemma NormalizedTwice(entries: seq<string>)
    ensures Normalized(Normalized(entries)) == Normalized(entries)
  {
    hide Trim;
    var list, texts := Normalized(entries), TrimAll(entries);
    NormalizedIsNormalForm(entries);
    LoopbackIsTrimmed();
    forall i | 0 <= i < |list| ensures Trim(list[i]) == list[i] {
      assert list[i] in list;
      if list[i] != REQUIRED_LOOPBACK_IP {
        var k := FirstIndex(texts, list[i]);
        TrimTwice(entries[k]);
      }
    }
    assert TrimAll(list) == list;
    NormalFormIsFixed(list, |list|);
    assert list[..|list|] == list;
  }

  lemma LoopbackIsTrimmed()
    ensures Trim(REQUIRED_LOOPBACK_IP) == REQUIRED_LOOPBACK_IP
  {
  }

  lemma TrimTwice(s: string)
    ensures Trim(Trim(s)) == Trim(s)
  {
    TrimYieldsTrimmed(s);
    TrimOfTrimmed(Trim(s));
  }

  // ----- Which clients are let in -----

  predicate EntryMatches(parsers: IpParsers, entry: string, client: Ip) {
    match parsers.ip(entry)
    case Some(ip) => ip == client
    case None => parsers.net(entry).Some? && Contains(parsers.net(entry).value, client)
  }

  predicate IsAllowed(parsers: IpParsers, client: Ip, entries: seq<string>) {
    IsLoopback(client) || exists entry :: entry in entries && EntryMatches(parsers, entry, client)
  }

  /** The bits of an address, the most significant first. */
  function AddressBits(ip: Ip): seq<bool> {
    match ip
    case V4(o) => Bits(o, 8)
    case V6(g) => Bits(g, 16)
  }

  function BaseOf(net: Net): Ip {
    match net
    case Net4(base, _) => V4(base)
    case Net6(base, _) => V6(base)
  }

  lemma UnitsFit(ip: Ip)
    ensures ip.V4? ==> forall i :: 0 <= i < 4 ==> Fits(ip.octets[i], 8)
    ensures ip.V6? ==> forall i :: 0 <= i < 8 ==> Fits(ip.groups[i], 16)
  {
    hide Fits;
    assert Pow2(8) == 0x100;
    if ip.V4? {
      forall i | 0 <= i < 4 ensures Fits(ip.octets[i], 8) {
        SmallFits(ip.octets[i], 8);
      }
    } else {
      forall i | 0 <= i < 8 ensures Fits(ip.groups[i], 16) {
        GroupFits(ip.groups[i]);
      }
    }
  }

  /** A network holds exactly the addresses of its own kind whose first bits are those of its base. */
  lemma NetworkHoldsExactly(net: Net, client: Ip)
    requires PrefixLength(net) <= |AddressBits(BaseOf(net))|
    ensures Contains(net, client)
            <==> && client.V4? == net.Net4?
                 && AddressBits(client)[..PrefixLength(net)] == AddressBits(BaseOf(net))[..PrefixLength(net)]
  {
    hide SamePrefix, Bits, Fits;
    UnitsFit(client);
    UnitsFit(BaseOf(net));
    match (net, client)
    case (Net4(base, prefix), V4(o)) => PrefixIsFirstBits(o, base, 8, prefix);
    case (Net6(base, prefix), V6(g)) => PrefixIsFirstBits(g, base, 16, prefix);
    case _ =>
  }

  /**
   What an entry admits: an address that address, a network the addresses whose first bits agree
   with it, and a text that is neither nobody. Prefixes are no longer than an address.
   */
  lemma EntryAdmitsExactly(parsers: IpParsers, entry: string, client: Ip)
    requires parsers.net(entry).Some? ==>
               PrefixLength(parsers.net(entry).value) <= |AddressBits(BaseOf(parsers.net(entry).value))|
    ensures EntryMatches(parsers, entry, client)
            <==> || parsers.ip(entry) == Some(client)
                 || (parsers.ip(entry).None? && parsers.net(entry).Some?
                     && var net := parsers.net(entry).value;
                     && client.V4? == net.Net4?
                     && AddressBits(client)[..PrefixLength(net)] == AddressBits(BaseOf(net))[..PrefixLength(net)])
  {
    hide Contains, AddressBits;
    if parsers.ip(entry).None? && parsers.net(entry).Some? {
      NetworkHoldsExactly(parsers.net(entry).value, client);
    }
  }

  /** The texts that every reading of addresses must get right. */
  predicate ReadsBasics(parsers: IpParsers) {
    && parsers.ip("") == None && parsers.net("") == None
    && parsers.ip(REQUIRED_LOOPBACK_IP) == Some(LOOPBACK4)
  }

  /** The normalised list lets in exactly the clients that some trimmed entry names. */
  lemma NormalizedDecision(parsers: IpParsers, client: Ip, entries: seq<string>)
    requires ReadsBasics(parsers)
    ensures IsAllowed(parsers, client, Normalized(entries))
            <==> IsLoopback(client) || exists entry :: entry in entries && EntryMatches(parsers, Trim(entry), client)
  {
    hide Trim, Contains;
    var list, texts := Normalized(entries), TrimAll(entries);
    NormalizedIsNormalForm(entries);
    if text :| text in list && EntryMatches(parsers, text, client) {
      if text != REQUIRED_LOOPBACK_IP {
        var entry := entries[FirstIndex(texts, text)];
        assert entry in entries && EntryMatches(parsers, Trim(entry), client);
      }
    }
    if entry :| entry in entries && EntryMatches(parsers, Trim(entry), client) {
      var k :| 0 <= k < |entries| && entries[k] == entry;
      assert texts[k] in texts;
      assert Trim(entry) in list;
    }
  }

  /** So on trimmed entries normalisation changes no decision. */
  lemma TrimmedDecisionUnchanged(parsers: IpParsers, client: Ip, entries: seq<string>)
    requires ReadsBasics(parsers)
    requires forall entry :: entry in entries ==> IsTrimmed(entry)
    ensures IsAllowed(parsers, client, Normalized(entries)) <==> IsAllowed(parsers, client, entries)
  {
    hide Contains;
    NormalizedDecision(parsers, client, entries);
    forall entry | entry in entries ensures Trim(entry) == entry {
      TrimOfTrimmed(entry);
    }
  }

  /**
   On other entries it can only let in more clients: whatever an untrimmed entry meant becomes
   effective, because no reader accepts a text with surrounding whitespace.
   */
  lemma NormalizationAdmitsMore(parsers: IpParsers, client: Ip, entries: seq<string>)
    requires ReadsBasics(parsers)
    requires forall text :: !IsTrimmed(text) ==> parsers.ip(text).None? && parsers.net(text).None?
    ensures IsAllowed(parsers, client, entries) ==> IsAllowed(parsers, client, Normalized(entries))
    ensures (IsAllowed(parsers, client, Normalized(entries)) && !IsAllowed(parsers, client, entries))
            <==> && !IsLoopback(client)
                 && (exists entry ::
                       entry in entries && !IsTrimmed(entry) && EntryMatches(parsers, Trim(entry), client))
                 && (forall entry :: entry in entries && IsTrimmed(entry) ==> !EntryMatches(parsers, entry, client))
  {
    hide Contains, Trim;
    NormalizedDecision(parsers, client, entries);
    forall entry | entry in entries && IsTrimmed(entry) ensures Trim(entry) == entry {
      TrimOfTrimmed(entry);
    }
  }

  lemma LeadingSpaceIsTrimmed(text: string)
    requires IsTrimmed(text)
    ensures Trim(" " + text) == text
  {
    assert (" " + text)[1..] == text;
    assert TrimStart(" " + text) == TrimStart(text);
  }

  /** For instance, an address behind a stray space admits nobody until the list is normalised. */
  lemma UntrimmedEntryChangesDecision(parsers: IpParsers, client: Ip, text: string)
    requires ReadsBasics(parsers)
    requires IsTrimmed(text) && parsers.ip(text) == Some(client) && !IsLoopback(client)
    requires parsers.ip(" " + text).None? && parsers.net(" " + text).None?
    ensures !IsAllowed(parsers, client, [" " + text])
    ensures IsAllowed(parsers, client, Normalized([" " + text]))
  {
    hide Trim, Contains;
    var entry := " " + text;
    LeadingSpaceIsTrimmed(text);
    NormalizedDecision(parsers, client, [entry]);
    assert entry in [entry] && EntryMatches(parsers, Trim(entry), client);
  }

  // ----- Which entries may be saved -----

  datatype EntryError = EmptyEntry | AnyAddress | InvalidEntry

  function PrefixLength(net: Net): nat {
    match net
    case Net4(_, prefix) => prefix
    case Net6(_, prefix) => prefix
  }

  function ValidateEntry(parsers: IpParsers, entry: string): Result<Unit, EntryError> {
    var text := Trim(entry);
    if text == "" then Err(EmptyEntry)
    else if text == "0.0.0.0" || text == "::" || text == "0.0.0.0/0" || text == "::/0" then Err(AnyAddress)
    else if '/' in text then
      match parsers.net(text)
      case None => Err(InvalidEntry)
      case Some(net) => if PrefixLength(net) == 0 then Err(AnyAddress) else Ok(Unit)
    else if parsers.ip(text).None? then Err(InvalidEntry)
    else Ok(Unit)
  }

  /** The ways to write "everyone" that are refused whatever they would be read as. */
  const ANY_ADDRESS := {"0.0.0.0", "::", "0.0.0.0/0", "::/0"}

  /** An entry may be saved if and only if it is a particular address or a network with a prefix. */
  lemma AcceptedEntriesExactly(parsers: IpParsers, entry: string)
    requires ReadsBasics(parsers)
    ensures var text := Trim(entry);
            ValidateEntry(parsers, entry).Ok?
            <==> && text !in ANY_ADDRESS
                 && (if '/' in text then parsers.net(text).Some? && PrefixLength(parsers.net(text).value) >= 1
                     else parsers.ip(text).Some?)
  {
    hide Trim;
  }

  function FlipFirst(x: nat, half: nat): nat {
    if x < half then x + half else x - half
  }

  /** The address with its first bit flipped. */
  function Opposite(ip: Ip): Ip {
    match ip
    case V4(o) => V4(o[0 := FlipFirst(o[0], 0x80)])
    case V6(g) => V6(g[0 := FlipFirst(g[0], 0x8000)])
  }

  lemma {:induction false} FlippedStaysDifferent(x: nat, bits: nat, dropped: nat)
    requires dropped <= bits && x < 2 * Pow2(bits)
    ensures ShiftRight(FlipFirst(x, Pow2(bits)), dropped) != ShiftRight(x, dropped)
    decreases dropped
  {
    if dropped > 0 {
      assert FlipFirst(x, Pow2(bits)) / 2 == FlipFirst(x / 2, Pow2(bits - 1));
      FlippedStaysDifferent(x / 2, bits - 1, dropped - 1);
    }
  }

  /** No network that may be saved contains both an address and its opposite. */
  lemma NetworkSeparates(net: Net, ip: Ip)
    requires PrefixLength(net) > 0 && Contains(net, ip)
    ensures !Contains(net, Opposite(ip))
  {
    hide ShiftRight;
    match (net, ip)
    case (Net4(base, prefix), V4(o)) =>
      if prefix < 8 {
        assert Pow2(7) == 0x80;
        FlippedStaysDifferent(o[0], 7, 8 - prefix);
      }
    case (Net6(base, prefix), V6(g)) =>
      if prefix < 16 {
        assert Pow2(8) == 0x100 && Pow2(15) == 0x8000;
        FlippedStaysDifferent(g[0], 15, 16 - prefix);
      }
  }

  /** So no acceptable entry lets every client in: of an address and its opposite, one stays out. */
  lemma AcceptedEntryIsNotEveryone(parsers: IpParsers, entry: string, client: Ip)
    requires ValidateEntry(parsers, entry).Ok?
    requires '/' !in Trim(entry) || parsers.ip(Trim(entry)).None?
    ensures EntryMatches(parsers, Trim(entry), client) ==> !EntryMatches(parsers, Trim(entry), Opposite(client))
  {
    hide Trim, Contains;
    var text := Trim(entry);
    if parsers.ip(text).Some? {
      if parsers.ip(text).value == client {
        assert Opposite(client) != client;
      }
    } else if EntryMatches(parsers, text, client) {
      NetworkSeparates(parsers.net(text).value, client);
    }
  }
}
