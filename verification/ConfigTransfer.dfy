/**
 Moving settings between installations: exporting chosen settings, merging them into another
 configuration, previewing the merge, and saving the result.

 Encryption and the file format around the payload are outside the model.
 */
module ConfigTransfer {
  import opened Common
  import opened Protocol
  import opened Text
  import opened IpAddress
  import opened IpWhitelist

  type Port = n: nat | n < 0x1_0000

  /** The settings that no transfer touches. */
  datatype Preferences = Preferences(
    defaultPrinter: Option<string>,
    defaultPaper: Option<Paper>,
    defaultCopies: nat,
    maxFileSizeMb: nat,
    maxBatchJobs: nat,
    maxCopies: nat,
    downloadTimeoutSeconds: nat,
    autostart: bool,
    language: string)

  datatype AgentConfig = AgentConfig(
    host: string,
    port: Port,
    allowedOrigins: seq<string>,
    allowedIps: seq<string>,
    preferences: Preferences)

  /** The readers of URLs and addresses, and the serialization of a URL's origin. */
  datatype Readers = Readers(parse: UrlParser, originText: Url -> string, parsers: IpParsers)

  predicate IsValidOrigin(readers: Readers, value: string) {
    match readers.parse(value)
    case None => false
    case Some(url) => IsHttp(url) && readers.originText(url) == value
  }

  function NormalizedConfig(config: AgentConfig): AgentConfig {
    config.(host := "127.0.0.1", allowedIps := Normalized(config.allowedIps))
  }

  // ----- The transfer file -----

  datatype ExportOptions = ExportOptions(servicePort: bool, allowedOrigins: bool, allowedIps: bool)

  datatype ServicePart = ServicePart(port: Option<Port>)

  datatype SecurityPart = SecurityPart(allowedOrigins: Option<seq<string>>, allowedIps: Option<seq<string>>)

  datatype Payload = Payload(format: string, version: nat, service: Option<ServicePart>, security: Option<SecurityPart>)

  const PAYLOAD_FORMAT := "yinshu-config"
  const TRANSFER_VERSION := 1

  function BuildTransferPayload(config: AgentConfig, options: ExportOptions): Payload {
    Payload(
      PAYLOAD_FORMAT,
      TRANSFER_VERSION,
      if options.servicePort then Some(ServicePart(Some(config.port))) else None,
      if options.allowedOrigins || options.allowedIps then
        Some(SecurityPart(if options.allowedOrigins then Some(config.allowedOrigins) else None,
                          if options.allowedIps then Some(config.allowedIps) else None))
      else None)
  }

  /** The settings that a payload carries, wherever its optional parts leave off. */
  function PortIn(payload: Payload): Option<Port> {
    if payload.service.Some? then payload.service.value.port else None
  }

  function OriginsIn(payload: Payload): Option<seq<string>> {
    if payload.security.Some? then payload.security.value.allowedOrigins else None
  }

  function IpsIn(payload: Payload): Option<seq<string>> {
    if payload.security.Some? then payload.security.value.allowedIps else None
  }

  predicate IsKnown(payload: Payload) {
    payload.format == PAYLOAD_FORMAT && payload.version == TRANSFER_VERSION
  }

  datatype TransferError = InvalidFile | ZeroPort | InvalidOrigin(origin: string) | InvalidIp(error: EntryError)

  predicate ValidOrigins(readers: Readers, origins: seq<string>) {
    forall origin :: origin in origins ==> IsValidOrigin(readers, origin)
  }

  predicate ValidIps(parsers: IpParsers, entries: seq<string>) {
    forall entry :: entry in entries ==> ValidateEntry(parsers, entry).Ok?
  }

  /** When a payload may be merged, whatever it is merged into. */
  predicate IsMergeable(readers: Readers, payload: Payload) {
    && IsKnown(payload)
    && PortIn(payload) != Some(0)
    && (OriginsIn(payload).Some? ==> ValidOrigins(readers, OriginsIn(payload).value))
    && (IpsIn(payload).Some? ==> ValidIps(readers.parsers, IpsIn(payload).value))
  }

  /** The configuration after the merge: what the payload carries, and the rest as it was, normalised. */
  function Merged(current: AgentConfig, payload: Payload): AgentConfig {
    NormalizedConfig(current.(
      port := if PortIn(payload).Some? then PortIn(payload).value else current.port,
      allowedOrigins := if OriginsIn(payload).Some? then OriginsIn(payload).value else current.allowedOrigins,
      allowedIps := if IpsIn(payload).Some? then IpsIn(payload).value else current.allowedIps))
  }

  ghost predicate IsFirstBadOrigin(readers: Readers, origins: seq<string>, bad: string) {
    exists i :: 0 <= i < |origins| && origins[i] == bad
                && !IsValidOrigin(readers, origins[i]) && ValidOrigins(readers, origins[..i])
  }

  ghost predicate IsFirstBadIp(parsers: IpParsers, entries: seq<string>, bad: EntryError) {
    exists i :: 0 <= i < |entries| && ValidateEntry(parsers, entries[i]) == Err(bad)
                && ValidIps(parsers, entries[..i])
  }

  /** The first origin that is not valid. */
  method CheckOrigins(readers: Readers, origins: seq<string>) returns (bad: Option<string>)
    ensures bad.None? <==> ValidOrigins(readers, origins)
    ensures bad.Some? ==> IsFirstBadOrigin(readers, origins, bad.value)
  {
    hide IsValidOrigin;
    for n := 0 to |origins|
      invariant forall k :: 0 <= k < n ==> IsValidOrigin(readers, origins[k])
    {
      if !IsValidOrigin(readers, origins[n]) {
        assert origins[n] in origins;
        assert ValidOrigins(readers, origins[..n]);
        return Some(origins[n]);
      }
    }
    return None;
  }

  /** The complaint about the first address entry that is not valid. */
  method CheckIps(parsers: IpParsers, entries: seq<string>) returns (bad: Option<EntryError>)
    ensures bad.None? <==> ValidIps(parsers, entries)
    ensures bad.Some? ==> IsFirstBadIp(parsers, entries, bad.value)
  {
    hide ValidateEntry;
    for n := 0 to |entries|
      invariant forall k :: 0 <= k < n ==> ValidateEntry(parsers, entries[k]).Ok?
    {
      var verdict := ValidateEntry(parsers, entries[n]);
      if verdict.Err? {
        assert entries[n] in entries;
        assert ValidIps(parsers, entries[..n]);
        return Some(verdict.error);
      }
    }
    return None;
  }

  /** Succeeds exactly on a mergeable payload; the first offending setting, in order, names the error. */
  method MergePayload(readers: Readers, current: AgentConfig, payload: Payload)
    returns (r: Result<AgentConfig, TransferError>)
    ensures r.Ok? <==> IsMergeable(readers, payload)
    ensures r.Ok? ==> r.value == Merged(current, payload)
    ensures r == Err(InvalidFile) <==> !IsKnown(payload)
    ensures r == Err(ZeroPort) <==> IsKnown(payload) && PortIn(payload) == Some(0)
    ensures r.Err? && r.error.InvalidOrigin? <==>
              && IsKnown(payload) && PortIn(payload) != Some(0)
              && OriginsIn(payload).Some? && !ValidOrigins(readers, OriginsIn(payload).value)
    ensures r.Err? && r.error.InvalidOrigin? ==> IsFirstBadOrigin(readers, OriginsIn(payload).value, r.error.origin)
    ensures r.Err? && r.error.InvalidIp? ==>
              IpsIn(payload).Some? && IsFirstBadIp(readers.parsers, IpsIn(payload).value, r.error.error)
  {
    hide ValidOrigins, ValidIps, Normalized, IsFirstBadOrigin, IsFirstBadIp;
    if payload.format != PAYLOAD_FORMAT || payload.version != TRANSFER_VERSION {
      return Err(InvalidFile);
    }
    var next := current;
    if payload.service.Some? {
      var port := payload.service.value.port;
      if port.Some? {
        if port.value == 0 {
          return Err(ZeroPort);
        }
        next := next.(port := port.value);
      }
    }
    if payload.security.Some? {
      var security := payload.security.value;
      if security.allowedOrigins.Some? {
        var bad := CheckOrigins(readers, security.allowedOrigins.value);
        if bad.Some? {
          return Err(InvalidOrigin(bad.value));
        }
        next := next.(allowedOrigins := security.allowedOrigins.value);
      }
      if security.allowedIps.Some? {
        var bad := CheckIps(readers.parsers, security.allowedIps.value);
        if bad.Some? {
          return Err(InvalidIp(bad.value));
        }
        next := next.(allowedIps := security.allowedIps.value);
      }
    }
    var ips := NormalizeAllowedIps(next.allowedIps);
    return Ok(next.(host := "127.0.0.1", allowedIps := ips));
  }

  // ----- Preview -----

  datatype PreviewItem = PreviewItem(key: string, current: string, next: string)

  /** What the user is shown: one line per setting in the payload, and its effect. */
  function Changes(current: AgentConfig, payload: Payload): seq<PreviewItem> {
    var next := Merged(current, payload);
    (if PortIn(payload).Some? then [PreviewItem("service.port", Digits(current.port), Digits(PortIn(payload).value))]
     else [])
    + (if OriginsIn(payload).Some? then
         [PreviewItem("security.allowed_origins", Digits(|current.allowedOrigins|), Digits(|OriginsIn(payload).value|))]
       else [])
    + (if IpsIn(payload).Some? then
         [PreviewItem("security.allowed_ips", Digits(|current.allowedIps|), Digits(|next.allowedIps|))]
       else [])
  }

  method PreviewPayload(readers: Readers, current: AgentConfig, payload: Payload)
    returns (r: Result<seq<PreviewItem>, TransferError>)
    ensures r.Ok? <==> IsMergeable(readers, payload)
    ensures r.Ok? ==> r.value == Changes(current, payload)
  {
    hide IsMergeable, IsKnown, Normalized, Digits;
    var merge := MergePayload(readers, current, payload);
    if merge.Err? {
      return Err(merge.error);
    }
    var next := merge.value;
    var items := [];
    if payload.service.Some? && payload.service.value.port.Some? {
      items := items + [PreviewItem("service.port", Digits(current.port), Digits(next.port))];
    }
    if payload.security.Some? && payload.security.value.allowedOrigins.Some? {
      items := items + [PreviewItem("security.allowed_origins",
                                    Digits(|current.allowedOrigins|), Digits(|next.allowedOrigins|))];
    }
    if payload.security.Some? && payload.security.value.allowedIps.Some? {
      items := items + [PreviewItem("security.allowed_ips", Digits(|current.allowedIps|), Digits(|next.allowedIps|))];
    }
    return Ok(items);
  }

  // ----- Saving -----

  /** What `save_config` accepts. */
  predicate IsSavable(readers: Readers, config: AgentConfig) {
    ValidOrigins(readers, config.allowedOrigins) && ValidIps(readers.parsers, config.allowedIps)
  }

  class AgentState {
    var config: AgentConfig

    constructor (config: AgentConfig)
      ensures this.config == NormalizedConfig(config)
    {
      this.config := NormalizedConfig(config);
    }

    /** `writes` is whether the configuration file could be written. */
    method SaveConfig(readers: Readers, config: AgentConfig, writes: bool) returns (r: Option<AgentConfig>)
      modifies this
      ensures r.Some? <==> IsSavable(readers, config) && writes
      ensures r.Some? ==> r.value == this.config == NormalizedConfig(config)
      ensures r.None? ==> this.config == old(this.config)
    {
      hide ValidOrigins, ValidIps, Normalized;
      var badOrigin := CheckOrigins(readers, config.allowedOrigins);
      if badOrigin.Some? {
        return None;
      }
      var badEntry := CheckIps(readers.parsers, config.allowedIps);
      if badEntry.Some? {
        return None;
      }
      if !writes {
        return None;
      }
      this.config := NormalizedConfig(config);
      return Some(this.config);
    }
  }

  // ----- What a transfer achieves -----

  /** Merging the same payload again changes nothing. */
  lemma MergeTwice(current: AgentConfig, payload: Payload)
    ensures Merged(Merged(current, payload), payload) == Merged(current, payload)
  {
    hide Normalized;
    NormalizedTwice(if IpsIn(payload).Some? then IpsIn(payload).value else current.allowedIps);
  }

  /**
   Exporting from one installation and merging into another: the chosen settings arrive, the
   addresses normalised, and everything else of the target stays, normalised. Merging the same
   export once more changes nothing.
   */
  lemma TransferMovesChosenSettings(source: AgentConfig, target: AgentConfig, options: ExportOptions)
    ensures var merged := Merged(target, BuildTransferPayload(source, options));
            && merged.port == (if options.servicePort then source.port else target.port)
            && merged.allowedOrigins
               == (if options.allowedOrigins then source.allowedOrigins else target.allowedOrigins)
            && merged.allowedIps == Normalized(if options.allowedIps then source.allowedIps else target.allowedIps)
            && merged.preferences == target.preferences
            && merged.host == "127.0.0.1"
            && Merged(merged, BuildTransferPayload(source, options)) == merged
  {
    hide Normalized;
    MergeTwice(target, BuildTransferPayload(source, options));
  }

  /** An export can be merged exactly when its chosen settings are fit to be saved and the port is not zero. */
  lemma ExportIsMergeable(readers: Readers, source: AgentConfig, options: ExportOptions)
    ensures IsMergeable(readers, BuildTransferPayload(source, options))
            <==> && (options.servicePort ==> source.port != 0)
                 && (options.allowedOrigins ==> ValidOrigins(readers, source.allowedOrigins))
                 && (options.allowedIps ==> ValidIps(readers.parsers, source.allowedIps))
  {
    hide ValidOrigins, ValidIps;
  }

  /** Two payloads that carry different settings can be merged in either order. */
  lemma DisjointMergesCommute(current: AgentConfig, a: Payload, b: Payload)
    requires PortIn(a).None? || PortIn(b).None?
    requires OriginsIn(a).None? || OriginsIn(b).None?
    requires IpsIn(a).None? || IpsIn(b).None?
    ensures Merged(Merged(current, a), b) == Merged(Merged(current, b), a)
  {
    hide Normalized;
    NormalizedTwice(current.allowedIps);
    if IpsIn(a).Some? {
      NormalizedTwice(IpsIn(a).value);
    }
    if IpsIn(b).Some? {
      NormalizedTwice(IpsIn(b).value);
    }
  }

  lemma NormalizedStaysValid(parsers: IpParsers, entries: seq<string>)
    requires ReadsBasics(parsers)
    requires ValidIps(parsers, entries)
    ensures ValidIps(parsers, Normalized(entries))
  {
    hide Trim;
    var list, texts := Normalized(entries), TrimAll(entries);
    NormalizedIsNormalForm(entries);
    LoopbackIsTrimmed();
    forall text | text in list ensures ValidateEntry(parsers, text).Ok? {
      if text == REQUIRED_LOOPBACK_IP {
        assert '/' !in REQUIRED_LOOPBACK_IP;
      } else {
        var entry := entries[FirstIndex(texts, text)];
        assert entry in entries;
        TrimTwice(entry);
      }
    }
  }

  /**
   A merge never spoils a configuration: what was fit to be saved stays so, and saving the
   merged configuration stores exactly what was previewed.
   */
  lemma MergedStaysSavable(readers: Readers, current: AgentConfig, payload: Payload)
    requires ReadsBasics(readers.parsers)
    requires IsSavable(readers, current) && IsMergeable(readers, payload)
    ensures IsSavable(readers, Merged(current, payload))
    ensures NormalizedConfig(Merged(current, payload)) == Merged(current, payload)
  {
    hide Normalized, ValidIps, ValidOrigins;
    var ips := if IpsIn(payload).Some? then IpsIn(payload).value else current.allowedIps;
    NormalizedStaysValid(readers.parsers, ips);
    NormalizedTwice(ips);
  }

  /** The settings a transfer can carry, in the order in which they are shown. */
  const SETTINGS := ["service.port", "security.allowed_origins", "security.allowed_ips"]

  predicate Carries(payload: Payload, setting: nat)
    requires setting < |SETTINGS|
  {
    match setting
    case 0 => PortIn(payload).Some?
    case 1 => OriginsIn(payload).Some?
    case _ => IpsIn(payload).Some?
  }

  /** How a setting of a configuration is shown: the port itself, and the lists by their length. */
  function Shown(config: AgentConfig, setting: nat): string
    requires setting < |SETTINGS|
  {
    match setting
    case 0 => Digits(config.port)
    case 1 => Digits(|config.allowedOrigins|)
    case _ => Digits(|config.allowedIps|)
  }

  /** The line for one setting: what it is now and what the merge makes of it. */
  function ItemFor(current: AgentConfig, payload: Payload, setting: nat): PreviewItem
    requires setting < |SETTINGS|
  {
    PreviewItem(SETTINGS[setting], Shown(current, setting), Shown(Merged(current, payload), setting))
  }

  lemma ChangesByItem(current: AgentConfig, payload: Payload)
    ensures Changes(current, payload)
            == (if Carries(payload, 0) then [ItemFor(current, payload, 0)] else [])
               + (if Carries(payload, 1) then [ItemFor(current, payload, 1)] else [])
               + (if Carries(payload, 2) then [ItemFor(current, payload, 2)] else [])
  {
    hide Normalized, Digits;
  }

  lemma MissingStays(current: AgentConfig, payload: Payload, setting: nat)
    requires setting < |SETTINGS| && !Carries(payload, setting)
    ensures Shown(Merged(current, payload), setting) == Shown(NormalizedConfig(current), setting)
  {
    hide Normalized, Digits;
  }

  /**
   The preview is in step with the merge: its items follow the order of the settings without
   repeating one, each shows what is and what will be, and a setting is missing exactly when the
   payload does not carry it. A missing setting stays as it is, addresses normalised.
   */
  lemma PreviewShowsTheMerge(current: AgentConfig, payload: Payload) returns (settings: seq<nat>)
    ensures var items := Changes(current, payload);
            && |settings| == |items|
            && (forall i :: 0 <= i < |settings| ==> settings[i] < |SETTINGS|)
            && (forall i :: 0 <= i < |items| ==> items[i] == ItemFor(current, payload, settings[i]))
    ensures forall i, j :: 0 <= i < j < |settings| ==> settings[i] < settings[j]
    ensures forall k: nat :: k < |SETTINGS| ==> (k in settings <==> Carries(payload, k))
    ensures forall k: nat :: k < |SETTINGS| && k !in settings ==>
              Shown(Merged(current, payload), k) == Shown(NormalizedConfig(current), k)
  {
    hide Changes, ItemFor, Shown, Merged, NormalizedConfig, Carries;
    ChangesByItem(current, payload);
    forall k: nat | k < |SETTINGS| && !Carries(payload, k)
      ensures Shown(Merged(current, payload), k) == Shown(NormalizedConfig(current), k)
    {
      MissingStays(current, payload, k);
    }
    settings := (if Carries(payload, 0) then [0] else [])
                + (if Carries(payload, 1) then [1] else [])
                + (if Carries(payload, 2) then [2] else []);
  }

  /** No two items are about the same setting. */
  lemma PreviewRepeatsNothing(current: AgentConfig, payload: Payload, i: nat, j: nat)
    requires i < j < |Changes(current, payload)|
    ensures Changes(current, payload)[i].key != Changes(current, payload)[j].key
  {
    hide Changes, Shown;
    var settings := PreviewShowsTheMerge(current, payload);
    assert Changes(current, payload)[i] == ItemFor(current, payload, settings[i]);
    assert Changes(current, payload)[j] == ItemFor(current, payload, settings[j]);
    KeysDiffer(settings[i], settings[j]);
  }

  lemma KeysDiffer(a: nat, b: nat)
    requires a < b < |SETTINGS|
    ensures SETTINGS[a] != SETTINGS[b]
  {
    assert SETTINGS[0][1] == 'e' && SETTINGS[0][2] == 'r' && SETTINGS[1][2] == 'c' && SETTINGS[2][2] == 'c';
    assert SETTINGS[1][17] == 'o' && SETTINGS[2][17] == 'i';
  }
}
