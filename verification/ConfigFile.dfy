/** The whole configuration file: the table of its settings in printing order, `Render` and the
    line loop of `load`, and that loading a printed configuration gives it back. */
module ConfigFile {
  import opened Text
  import opened Int64
  import opened ConfigText

  datatype Kind = Words | LowerWords | Flag | Number | PrefixLength | Unsigned | List | LowerList | Resolvers

  datatype Entry = Entry(key: Key, kind: Kind)

  datatype Section = Section(name: Key, entries: seq<Entry>)

  datatype Value =
    | WordsValue(words: string)
    | FlagValue(flag: bool)
    | NumberValue(number: int)
    | ListValue(items: seq<string>)
    | UpstreamsValue(upstreams: seq<Upstream>)

  /** A setting's value by section and key. Neither has a dot, so `section.key` names it uniquely. */
  type Config = map<(string, string), Value>

  const DEFAULT_PREFIX_LEN := 24

  // ---- The settings ----

  const GATEWAY := Section("gateway", [
    Entry("mode", LowerWords), Entry("interface", Words), Entry("lan_ip", Words), Entry("lan_prefix_len", PrefixLength),
    Entry("upstream_interface", Words), Entry("upstream_gateway", Words)])
  const DHCP := Section("dhcp", [
    Entry("binary", Words), Entry("enabled", Flag), Entry("range_start", Words), Entry("range_end", Words),
    Entry("lease_time", Words), Entry("domain", Words), Entry("bypass_gateway", Words), Entry("bypass_dns", List)])
  const DEVICE_POLICY := Section("device_policy", [Entry("file", Words), Entry("protected_ipv4", List)])
  const DNS_SERVER: seq<Entry> := [
    Entry("listen", Words), Entry("port", Number), Entry("upstream", Words), Entry("ipv6", Flag)]
  const DNS_RESOLVER: seq<Entry> := [
    Entry("resolver_mode", Words), Entry("resolver_upstreams", Resolvers), Entry("proxy_node_upstreams", Resolvers)]
  const DNS_POLICY: seq<Entry> := [Entry("resolver_allow_plaintext", Flag), Entry("resolver_proxy_enabled", Flag)]
  const DNS_INTEGRATION: seq<Entry> := [Entry("resolver_proxy_target", Words), Entry("mihomo_use_smartdns", Flag)]
  const DNS := Section("dns", DNS_SERVER + DNS_RESOLVER + DNS_POLICY + DNS_INTEGRATION)
  const MIHOMO_PROFILE: seq<Entry> := [
    Entry("binary", Words), Entry("config", Words), Entry("profile_mode", LowerWords), Entry("profile", Words),
    Entry("profile_source_digest", Words), Entry("profile_overlay_digest", Words)]
  const MIHOMO_CONTROL: seq<Entry> := [
    Entry("store_fake_ip", Flag), Entry("mixed_port", Number), Entry("redir_port", Number), Entry("api_addr", Words),
    Entry("secret", Words)]
  const MIHOMO := Section("mihomo", MIHOMO_PROFILE + MIHOMO_CONTROL)
  const TAILSCALE_ACCOUNT: seq<Entry> := [
    Entry("enabled", Flag), Entry("display_name", Words), Entry("hostname", LowerWords), Entry("control_url", Words),
    Entry("auth_key_file", Words), Entry("state_dir", Words)]
  const TAILSCALE_ROUTES: seq<Entry> := [
    Entry("accept_routes", Flag), Entry("magic_dns_suffixes", LowerList), Entry("peer_cidrs", List),
    Entry("subnet_routes", List)]
  const TAILSCALE_ACCESS: seq<Entry> := [
    Entry("allow_mac", Flag), Entry("allow_all_devices", Flag), Entry("allowed_devices", List),
    Entry("exit_node", Words),
    Entry("exit_node_allow_lan_access", Flag)]
  const TAILSCALE := Section("tailscale", TAILSCALE_ACCOUNT + TAILSCALE_ROUTES + TAILSCALE_ACCESS)
  const NFTABLES := Section("nftables", [
    Entry("table_name", Words), Entry("fw_mark", Unsigned), Entry("route_table_id", Unsigned),
    Entry("route_rule_priority", Unsigned)])
  const TUN_DEVICE: seq<Entry> := [
    Entry("mode", LowerWords), Entry("tun_device", Words), Entry("tun_stack", LowerWords),
    Entry("tun_auto_route", Flag), Entry("tun_auto_detect_interface", Flag), Entry("tun_strict_route", Flag)]
  const TUN_IPV6: seq<Entry> := [
    Entry("tun_ipv6", LowerWords), Entry("ipv6_shared_l2_ready", Flag), Entry("ipv6_packet_broker_binary", Words),
    Entry("ipv6_packet_mtu", Number)]
  const TRANSPARENT := Section("transparent", TUN_DEVICE + TUN_IPV6)
  const LOCAL_SYSTEM_PROXY := Section("local_system_proxy", [Entry("enabled", Flag)])
  const LAN_PROXY := Section("lan_proxy", [Entry("enabled", Flag), Entry("socks_port", Number)])
  const UPSTREAM_PROXY := Section("upstream_proxy", [
    Entry("enabled", Flag), Entry("name", Words), Entry("type", LowerWords), Entry("server", Words),
    Entry("port", Number),
    Entry("username", Words), Entry("password", Words), Entry("match_domain", LowerWords)])
  const RUNTIME := Section("runtime", [Entry("dir", Words)])

  /** In the order in which they are printed. */
  const SECTIONS := [GATEWAY, DHCP, DEVICE_POLICY, DNS, MIHOMO, TAILSCALE, NFTABLES, TRANSPARENT,
                     LOCAL_SYSTEM_PROXY, LAN_PROXY, UPSTREAM_PROXY, RUNTIME]

  predicate DistinctKeys(entries: seq<Entry>) {
    forall i, j :: 0 <= i < j < |entries| ==> entries[i].key != entries[j].key
  }

  predicate WellNamed(sections: seq<Section>) {
    && (forall i, j :: 0 <= i < j < |sections| ==> sections[i].name != sections[j].name)
    && (forall i :: 0 <= i < |sections| ==> DistinctKeys(sections[i].entries))
  }

  /** The table has no setting twice. */
  lemma SettingsAreWellNamed()
    ensures WellNamed(SECTIONS)
  {
    hide DistinctKeys, GATEWAY, DHCP, DNS, MIHOMO, TAILSCALE, TRANSPARENT, UPSTREAM_PROXY, DEVICE_POLICY, NFTABLES,
      LOCAL_SYSTEM_PROXY, LAN_PROXY, RUNTIME;
    GatewayKeys();
    DHCPKeys();
    DNSKeys();
    MihomoKeys();
    TailscaleKeys();
    TransparentKeys();
    UpstreamProxyKeys();
    ShortKeys();
    SectionNames();
  }

  lemma SectionNames()
    ensures forall i, j :: 0 <= i < j < |SECTIONS| ==> SECTIONS[i].name != SECTIONS[j].name
  {
  }

  lemma ShortKeys()
    ensures DistinctKeys(DEVICE_POLICY.entries)
    ensures DistinctKeys(NFTABLES.entries)
    ensures DistinctKeys(LOCAL_SYSTEM_PROXY.entries)
    ensures DistinctKeys(LAN_PROXY.entries)
    ensures DistinctKeys(RUNTIME.entries)
  {
  }

  lemma GatewayKeys()
    ensures DistinctKeys(GATEWAY.entries)
  {
  }

  lemma DHCPKeys()
    ensures DistinctKeys(DHCP.entries)
  {
  }

  lemma DNSKeys()
    ensures DistinctKeys(DNS.entries)
  {
  }

  lemma MihomoKeys()
    ensures DistinctKeys(MIHOMO.entries)
  {
  }

  lemma AppendedKeys(a: seq<Entry>, b: seq<Entry>)
    requires DistinctKeys(a) && DistinctKeys(b)
    requires forall i, j :: 0 <= i < |a| && 0 <= j < |b| ==> a[i].key != b[j].key
    ensures DistinctKeys(a + b)
  {
  }

  lemma TailscaleFirstKeys()
    ensures DistinctKeys(TAILSCALE_ACCOUNT + TAILSCALE_ROUTES) && DistinctKeys(TAILSCALE_ACCESS)
  {
  }

  lemma TailscaleKeys()
    ensures DistinctKeys(TAILSCALE.entries)
  {
    hide DistinctKeys;
    TailscaleFirstKeys();
    AppendedKeys(TAILSCALE_ACCOUNT + TAILSCALE_ROUTES, TAILSCALE_ACCESS);
  }

  lemma TransparentKeys()
    ensures DistinctKeys(TRANSPARENT.entries)
  {
  }

  lemma UpstreamProxyKeys()
    ensures DistinctKeys(UPSTREAM_PROXY.entries)
  {
  }

  // ---- Values ----

  function RenderValue(printer: Printer, kind: Kind, value: Value): string {
    match value
    case WordsValue(words) => Quote(printer, words)
    case FlagValue(flag) => if flag then "true" else "false"
    case NumberValue(number) => Decimal(if kind == PrefixLength && number == 0 then DEFAULT_PREFIX_LEN else number)
    case ListValue(items) => Quote(printer, Join(items, ','))
    case UpstreamsValue(upstreams) => Quote(printer, Join(EncodeUpstreams(upstreams), ','))
  }

  function ParseNumber(text: string): Option<int> {
    var parsed := Atoi(text);
    if parsed.Some? && -INT64_LIMIT <= parsed.value < INT64_LIMIT then parsed else None
  }

  /** The part of `applyValue` that reads a text. */
  function ParseValue(kind: Kind, text: string, otherBase: string -> Option<nat>): Option<Value> {
    match kind
    case Words => Some(WordsValue(text))
    case LowerWords => Some(WordsValue(Lower(text)))
    case Flag => (match ParseFlag(text) case Some(flag) => Some(FlagValue(flag)) case None => None)
    case Number => (match ParseNumber(text) case Some(number) => Some(NumberValue(number)) case None => None)
    case PrefixLength => (match ParseNumber(text) case Some(number) => Some(NumberValue(number)) case None => None)
    case Unsigned => (match ParseUnsigned(text,
                                          otherBase) case Some(number) => Some(NumberValue(number)) case None => None)
    case List => Some(ListValue(CommaSeparated(text)))
    case LowerList => Some(ListValue(CommaSeparated(Lower(text))))
    case Resolvers => Some(UpstreamsValue(DecodeUpstreams(CommaSeparated(text))))
  }

  predicate IsLower(s: string) {
    Lower(s) == s
  }

  /** A normalized value that a configuration of printable text can hold. */
  predicate Normalized(printer: Printer, kind: Kind, value: Value) {
    match kind
    case Words => value.WordsValue? && PlainText(printer, value.words)
    case LowerWords => value.WordsValue? && PlainText(printer, value.words) && IsLower(value.words)
    case Flag => value.FlagValue?
    case Number => value.NumberValue? && -INT64_LIMIT <= value.number < INT64_LIMIT
    case PrefixLength => value.NumberValue? && -INT64_LIMIT <= value.number < INT64_LIMIT && value.number != 0
    case Unsigned => value.NumberValue? && 0 <= value.number < 0x1_0000_0000
    case List => value.ListValue? && Items(value.items) && PlainText(printer, Join(value.items, ','))
    case LowerList => value.ListValue? && Items(value.items) && PlainText(printer, Join(value.items, ','))
    && IsLower(Join(value.items, ','))
    case Resolvers =>
      value.UpstreamsValue? && PlainText(printer, Join(EncodeUpstreams(value.upstreams), ','))
      && forall i :: 0 <= i < |value.upstreams| ==> Encodable(value.upstreams[i])
  }

  /** Every normalized value is printed as a literal that is read back as the value. */
  lemma ValueReadsBack(printer: Printer, kind: Kind, value: Value, otherBase: string -> Option<nat>)
    requires ValidPrinter(printer) && Normalized(printer, kind, value)
    ensures Literal(RenderValue(printer, kind, value))
    ensures ParseValue(kind, Unquote(RenderValue(printer, kind, value)), otherBase) == Some(value)
  {
    hide Unquote, Literal, Quote, Join, CommaSeparated, DecodeUpstreams, EncodeUpstreams, Decimal, PlainText, Bare,
      Atoi, ParseUnsigned, Encodable, ConfigText.Items;
    match value {
      case WordsValue(words) =>
        QuotedIsLiteral(printer, words);
      case FlagValue(flag) =>
        FlagIsBare(flag);
        BareIsLiteral(if flag then "true" else "false");
      case NumberValue(number) =>
        DecimalReadsBack(number);
        BareIsLiteral(Decimal(number));
        if kind == Unsigned {
          UnsignedReadsBack(number, otherBase);
        }
      case ListValue(items) =>
        QuotedIsLiteral(printer, Join(items, ','));
        ListReadsBack(items);
      case UpstreamsValue(upstreams) =>
        QuotedIsLiteral(printer, Join(EncodeUpstreams(upstreams), ','));
        ResolversReadBack(upstreams);
    }
  }

  lemma FlagIsBare(flag: bool)
    ensures Bare(if flag then "true" else "false")
  {
  }

  lemma UnsignedReadsBack(n: nat, otherBase: string -> Option<nat>)
    requires n < 0x1_0000_0000
    ensures ParseUnsigned(Decimal(n), otherBase) == Some(n)
  {
    DigitsReadBack(n);
    NoLeadingZero(n);
    if n > 0 {
      assert Decimal(n)[0] != '0';
    }
  }

  // ---- Printing ----

  /** Every setting of the sections has a normalized value. */
  predicate Complete(printer: Printer, sections: seq<Section>, config: Config) {
    forall section, entry :: section in sections && entry in section.entries ==>
                               (section.name, entry.key) in config
                               && Normalized(printer, entry.kind, config[(section.name, entry.key)])
  }

  predicate HasSettings(section: Section, config: Config) {
    forall entry :: entry in section.entries ==> (section.name, entry.key) in config
  }

  function EntryLines(printer: Printer, name: string, entries: seq<Entry>, config: Config): seq<string>
    requires forall entry :: entry in entries ==> (name, entry.key) in config
  {
    if entries == [] then []
    else
      assert entries[0] in entries;
      [SettingLine(entries[0].key, RenderValue(printer, entries[0].kind, config[(name, entries[0].key)]))]
      + EntryLines(printer, name, entries[1..], config)
  }

  /** The sections, with a blank line between them. */
  function SectionLines(printer: Printer, sections: seq<Section>, config: Config): seq<string>
    requires forall section :: section in sections ==> HasSettings(section, config)
  {
    if sections == [] then []
    else
      assert sections[0] in sections && HasSettings(sections[0], config);
      [sections[0].name + ":"] + EntryLines(printer, sections[0].name, sections[0].entries, config)
      + (if |sections| == 1 then [] else [""])
      + SectionLines(printer, sections[1..], config)
  }

  function Unlines(lines: seq<string>): string {
    if lines == [] then "" else lines[0] + ['\n'] + Unlines(lines[1..])
  }

  function Render(printer: Printer, config: Config): string
    requires forall section :: section in SECTIONS ==> HasSettings(section, config)
  {
    Unlines(SectionLines(printer, SECTIONS, config))
  }

  // ---- Loading ----

  /** `bufio.ScanLines`: lines end at a line feed. */
  function Lines(text: string): seq<string> {
    var parts := Split(text, '\n');
    if parts[|parts| - 1] == "" then parts[..|parts| - 1] else parts
  }

  /** A line loses one carriage return before its line feed. */
  function DropReturn(line: string): string {
    if HasSuffix(line, "\r") then line[..|line| - 1] else line
  }

  /** What the scanner's buffer holds of a line beside its line feed, carriage return included. */
  const MAX_LINE := 65535

  function Utf8Length(s: string): nat {
    if s == "" then 0
    else
      Utf8Length(s[1..])
      + if s[0] < '\U{80}' then 1 else if s[0] < '\U{800}' then 2 else if s[0] < '\U{10000}' then 3 else 4
  }

  datatype LoadError = TooLong | ExpectedSetting | BadValue(section: string, key: string)
    | UnknownKey(section: string, key: string)

  datatype State = State(section: string, config: Config)

  function EntryKind(entries: seq<Entry>, key: string): Option<Kind> {
    if entries == [] then None
    else if entries[0].key == key then Some(entries[0].kind)
    else EntryKind(entries[1..], key)
  }

  /** The network text is read but never printed. */
  function KindOf(sections: seq<Section>, section: string, key: string): Option<Kind> {
    if section == "gateway" && key == "lan_cidr" then Some(Words)
    else if sections == [] then None
    else if sections[0].name == section then EntryKind(sections[0].entries, key)
    else KindOf(sections[1..], section, key)
  }

  function ApplyValue(sections: seq<Section>, state: State, key: string, text: string,
      otherBase: string -> Option<nat>): Result<State, LoadError> {
    match KindOf(sections, state.section, key)
    case None => Failure(UnknownKey(state.section, key))
    case Some(kind) =>
      match ParseValue(kind, text, otherBase)
      case None => Failure(BadValue(state.section, key))
      case Some(value) => Success(state.(config := state.config[(state.section, key) := value]))
  }

  function ApplyLine(sections: seq<Section>, state: State, line: string,
      otherBase: string -> Option<nat>): Result<State, LoadError> {
    if Utf8Length(line) > MAX_LINE then Failure(TooLong)
    else
      match ParseLine(DropReturn(line))
      case Blank => Success(state)
      case Heading(section) => Success(state.(section := section))
      case Malformed => Failure(ExpectedSetting)
      case Setting(key, text) => ApplyValue(sections, state, key, text, otherBase)
  }

  function Loaded(sections: seq<Section>, state: State, lines: seq<string>,
      otherBase: string -> Option<nat>): Result<State, LoadError>
    decreases |lines|
  {
    if lines == [] then Success(state)
    else
      match ApplyLine(sections, state, lines[0], otherBase)
      case Failure(error) => Failure(error)
      case Success(next) => Loaded(sections, next, lines[1..], otherBase)
  }

  /** The line loop of `load`, starting from the default configuration. */
  method Load(text: string, defaults: Config, otherBase: string -> Option<nat>) returns (r: Result<Config, LoadError>)
    ensures r == match Loaded(SECTIONS, State("", defaults), Lines(text), otherBase)
                 case Success(state) => Success(state.config)
                 case Failure(error) => Failure(error)
  {
    hide SECTIONS, ParseLine, ParseValue, KindOf, Utf8Length, Uncommented, DropReturn;
    var lines := Lines(text);
    var section, config := "", defaults;
    for i := 0 to |lines|
      invariant Loaded(SECTIONS, State("", defaults), lines, otherBase)
                == Loaded(SECTIONS, State(section, config), lines[i..], otherBase)
    {
      if Utf8Length(lines[i]) > MAX_LINE {
        return Failure(TooLong);
      }
      var parsed := ParseLine(DropReturn(lines[i]));
      match parsed {
        case Blank =>
        case Heading(name) =>
          section := name;
        case Malformed =>
          return Failure(ExpectedSetting);
        case Setting(key, value) =>
          var applied := ApplyValue(SECTIONS, State(section, config), key, value, otherBase);
          if applied.Failure? {
            return Failure(applied.error);
          }
          config := applied.value.config;
      }
    }
    return Success(config);
  }

  // ---- The round trip ----

  /** The settings of the entries, put over a configuration. */
  function Overlay(base: Config, name: string, entries: seq<Entry>, config: Config): Config
    requires forall entry :: entry in entries ==> (name, entry.key) in config
    decreases |entries|
  {
    if entries == [] then base
    else
      assert entries[0] in entries;
      Overlay(base[(name, entries[0].key) := config[(name, entries[0].key)]], name, entries[1..], config)
  }

  function OverlayAll(base: Config, sections: seq<Section>, config: Config): Config
    requires forall section :: section in sections ==> HasSettings(section, config)
    decreases |sections|
  {
    if sections == [] then base
    else
      assert sections[0] in sections && HasSettings(sections[0], config);
      OverlayAll(Overlay(base, sections[0].name, sections[0].entries, config), sections[1..], config)
  }

  lemma {:induction false} OverlayGives(base: Config, name: string, entries: seq<Entry>, config: Config)
    requires forall entry :: entry in entries ==> (name, entry.key) in config
    ensures var result := Overlay(base, name, entries, config);
            && result.Keys == base.Keys + (set entry | entry in entries :: (name, entry.key))
            && forall k :: k in result ==>
                 result[k] ==
                 if k.0 == name && exists entry :: entry in entries && entry.key == k.1 then config[k] else base[k]
    decreases |entries|
  {
    if entries != [] {
      var first := entries[0];
      assert first in entries;
      var next := base[(name, first.key) := config[(name, first.key)]];
      OverlayGives(next, name, entries[1..], config);
      assert forall entry :: entry in entries <==> entry == first || entry in entries[1..];
    }
  }

  predicate Printed(sections: seq<Section>, k: (string, string)) {
    exists section, entry :: section in sections && entry in section.entries && k == (section.name, entry.key)
  }

  lemma {:induction false} OverlayAllGives(base: Config, sections: seq<Section>, config: Config, k: (string, string))
    requires forall section :: section in sections ==> HasSettings(section, config)
    ensures var result := OverlayAll(base, sections, config);
            && (k in result <==> k in base || Printed(sections, k))
            && (Printed(sections, k) ==> k in config && result[k] == config[k])
            && (!Printed(sections, k) && k in base ==> result[k] == base[k])
    decreases |sections|
  {
    if sections != [] {
      var first := sections[0];
      assert first in sections;
      OverlayGives(base, first.name, first.entries, config);
      OverlayAllGives(Overlay(base, first.name, first.entries, config), sections[1..], config, k);
      assert forall section :: section in sections <==> section == first || section in sections[1..];
    }
  }

  lemma {:induction false} EntryKindFound(entries: seq<Entry>, i: nat)
    requires i < |entries| && DistinctKeys(entries)
    ensures EntryKind(entries, entries[i].key) == Some(entries[i].kind)
  {
    if i > 0 {
      assert entries[0].key != entries[i].key;
      assert entries[1..][i - 1] == entries[i];
      EntryKindFound(entries[1..], i - 1);
    }
  }

  lemma {:induction false} KindFound(sections: seq<Section>, j: nat, i: nat)
    requires WellNamed(sections) && j < |sections| && i < |sections[j].entries|
    ensures KindOf(sections, sections[j].name, sections[j].entries[i].key) == Some(sections[j].entries[i].kind)
            || (sections[j].name == "gateway" && sections[j].entries[i].key == "lan_cidr")
  {
    if j > 0 {
      assert sections[0].name != sections[j].name;
      assert sections[1..][j - 1] == sections[j];
      KindFound(sections[1..], j - 1, i);
    } else {
      EntryKindFound(sections[0].entries, i);
    }
  }

  predicate Fits(lines: seq<string>) {
    forall i :: 0 <= i < |lines| ==> Utf8Length(lines[i]) <= MAX_LINE
  }

  /** The lines of a section's entries set exactly these entries, if they fit. */
  lemma {:induction false} EntriesLoad(printer: Printer, sections: seq<Section>, j: nat, n: nat, config: Config,
                                       state: State, rest: seq<string>, otherBase: string -> Option<nat>)
    requires ValidPrinter(printer) && WellNamed(sections) && Complete(printer, sections, config)
    requires j < |sections| && n <= |sections[j].entries| && state.section == sections[j].name
    requires !(sections[j].name == "gateway" && exists entry :: entry in sections[j].entries && entry.key == "lan_cidr")
    ensures var section := sections[j];
            var entries := section.entries[n..];
            && (forall entry :: entry in entries ==> (section.name, entry.key) in config)
            && var lines := EntryLines(printer, section.name, entries, config);
               Loaded(sections, state, lines + rest, otherBase) ==
               if Fits(lines)
               then Loaded(sections, state.(config := Overlay(state.config, section.name, entries, config)), rest,
                           otherBase)
               else Failure(TooLong)
    decreases |sections[j].entries| - n
  {
    hide ParseLine, Unquote, ParseValue, RenderValue, Normalized, Utf8Length, SettingLine, KindOf, WellNamed, Literal,
      DropReturn;
    var section := sections[j];
    var entries := section.entries[n..];
    assert section in sections;
    assert forall entry :: entry in entries ==> entry in section.entries;
    if entries == [] {
      assert EntryLines(printer, section.name, entries, config) + rest == rest;
    } else {
      var entry := entries[0];
      assert entry == section.entries[n] && entry in section.entries;
      var value := config[(section.name, entry.key)];
      var literal := RenderValue(printer, entry.kind, value);
      var line := SettingLine(entry.key, literal);
      ValueReadsBack(printer, entry.kind, value, otherBase);
      SettingIsRead(entry.key, literal);
      ValueIsClean(printer, entry.kind, value);
      SettingHasNoReturn(entry.key, literal);
      KindFound(sections, j, n);
      var lines := EntryLines(printer, section.name, entries, config);
      var others := EntryLines(printer, section.name, entries[1..], config);
      assert entries[1..] == section.entries[n + 1..];
      assert lines == [line] + others && (lines + rest)[0] == line && (lines + rest)[1..] == others + rest;
      var next := state.(config := state.config[(section.name, entry.key) := value]);
      EntriesLoad(printer, sections, j, n + 1, config, next, rest, otherBase);
      assert Fits(lines) <==> Utf8Length(line) <= MAX_LINE && Fits(others) by {
        FitsSplit([line], others);
      }
    }
  }

  lemma SettingHasNoReturn(key: Key, literal: string)
    requires Clean(literal)
    ensures DropReturn(SettingLine(key, literal)) == SettingLine(key, literal)
  {
    var line := SettingLine(key, literal);
    assert line[|line| - 1] in line && Clean(line);
  }

  lemma HeadingHasNoReturn(name: Key)
    ensures DropReturn(name + ":") == name + ":" && DropReturn("") == ""
  {
  }

  lemma FitsSplit(a: seq<string>, b: seq<string>)
    ensures Fits(a + b) <==> Fits(a) && Fits(b)
  {
    hide Utf8Length;
    if Fits(a + b) {
      forall i | 0 <= i < |a| ensures Utf8Length(a[i]) <= MAX_LINE {
        assert (a + b)[i] == a[i];
      }
      forall i | 0 <= i < |b| ensures Utf8Length(b[i]) <= MAX_LINE {
        assert (a + b)[|a| + i] == b[i];
      }
    }
  }

  /** No section has the one setting that is only read. */
  predicate PrintsAll(sections: seq<Section>) {
    forall section, entry :: section in sections && entry in section.entries ==>
      !(section.name == "gateway" && entry.key == "lan_cidr")
  }

  lemma GatewayPrintsNoNetwork()
    ensures PrintsAll(SECTIONS)
  {
    hide DHCP, DNS, MIHOMO, TAILSCALE, TRANSPARENT, UPSTREAM_PROXY, DEVICE_POLICY, NFTABLES, LOCAL_SYSTEM_PROXY,
      LAN_PROXY, RUNTIME;
    SettingsAreWellNamed();
    NoNetworkKey();
    assert SECTIONS[0] == GATEWAY;
    forall section | section in SECTIONS && section.name == "gateway" ensures section == GATEWAY {
      var i :| 0 <= i < |SECTIONS| && SECTIONS[i] == section;
      if i != 0 {
        assert SECTIONS[0].name != SECTIONS[i].name;
      }
    }
  }

  lemma NoNetworkKey()
    ensures GATEWAY.name == "gateway" && forall entry :: entry in GATEWAY.entries ==> entry.key != "lan_cidr"
  {
  }

  lemma FitsParts(heading: string, entries: seq<string>, gap: seq<string>, others: seq<string>)
    ensures Fits([heading] + (entries + (gap + others))) <==>
            Utf8Length(heading) <= MAX_LINE && Fits(entries) && Fits(gap) && Fits(others)
  {
    hide Utf8Length;
    FitsSplit([heading], entries + (gap + others));
    FitsSplit(entries, gap + others);
    FitsSplit(gap, others);
    assert Fits([heading]) <==> Utf8Length([heading][0]) <= MAX_LINE;
  }

  lemma NoLinesFit()
    ensures Fits([])
  {
  }

  /** All lines of the sections from `j` on. */
  lemma {:induction false} SectionsLoad(printer: Printer, sections: seq<Section>, j: nat, config: Config, state: State,
      otherBase: string -> Option<nat>)
    requires ValidPrinter(printer) && WellNamed(sections) && Complete(printer, sections, config) && PrintsAll(sections)
    requires j <= |sections| && forall section :: section in sections ==> HasSettings(section, config)
    ensures var lines := SectionLines(printer, sections[j..], config);
            var loaded := Loaded(sections, state, lines, otherBase);
            if Fits(lines) then loaded.Success?
            && loaded.value.config == OverlayAll(state.config, sections[j..], config)
            else loaded == Failure(TooLong)
    decreases |sections| - j
  {
    hide ParseLine, Utf8Length, Normalized, WellNamed, EntryLines, Overlay, ApplyValue, Fits, Complete, ValidPrinter,
      DropReturn;
    NoLinesFit();
    var todo := sections[j..];
    if todo != [] {
      var section := todo[0];
      assert section == sections[j] && section in sections && section in todo;
      var heading := section.name + ":";
      var entries := EntryLines(printer, section.name, section.entries, config);
      var gap := if |todo| == 1 then [] else [""];
      var others := SectionLines(printer, todo[1..], config);
      var lines := SectionLines(printer, todo, config);
      assert todo[1..] == sections[j + 1..];
      assert lines == [heading] + (entries + (gap + others));
      FitsParts(heading, entries, gap, others);
      HeadingIsRead(section.name);
      HeadingHasNoReturn(section.name);
      assert lines[0] == heading && lines[1..] == entries + (gap + others);
      var entered := state.(section := section.name);
      EntriesLoad(printer, sections, j, 0, config, entered, gap + others, otherBase);
      assert section.entries[0..] == section.entries;
      var after := entered.(config := Overlay(state.config, section.name, section.entries, config));
      GapLoads(sections, after, gap, others, otherBase);
      SectionsLoad(printer, sections, j + 1, config, after, otherBase);
    }
  }

  lemma GapLoads(sections: seq<Section>, state: State, gap: seq<string>, others: seq<string>,
      otherBase: string -> Option<nat>)
    requires gap == [] || gap == [""]
    ensures Fits(gap) && Loaded(sections, state, gap + others, otherBase) == Loaded(sections, state, others, otherBase)
  {
    hide ParseLine;
    BlankIsRead();
    if gap == [] {
      assert gap + others == others;
    } else {
      assert (gap + others)[0] == "" && (gap + others)[1..] == others;
    }
  }

  // ---- From lines to text and back ----

  predicate CleanLines(lines: seq<string>) {
    forall i :: 0 <= i < |lines| ==> '\n' !in lines[i] && '\r' !in lines[i]
  }

  lemma {:induction false} SplitUnlines(lines: seq<string>)
    requires CleanLines(lines)
    ensures Split(Unlines(lines), '\n') == lines + [""]
  {
    hide Split;
    if lines == [] {
      SplitWithout("", '\n');
    } else {
      SplitUnlines(lines[1..]);
      SplitAtSeparator(lines[0], Unlines(lines[1..]), '\n');
    }
  }

  lemma LinesReadBack(lines: seq<string>)
    requires CleanLines(lines)
    ensures Lines(Unlines(lines)) == lines
  {
    hide Split, Unlines;
    SplitUnlines(lines);
    var parts := lines + [""];
    assert parts[..|parts| - 1] == lines;
  }

  predicate Clean(line: string) {
    '\n' !in line && '\r' !in line
  }

  lemma PlainIsClean(printer: Printer, s: string)
    requires ValidPrinter(printer) && PlainText(printer, s)
    ensures Clean(Quote(printer, s))
  {
    PlainIsNotEscaped(printer, s);
    forall c | c in s ensures c != '\n' && c != '\r' {
      assert PlainChar(printer, c);
      assert !IsControl(c);
    }
  }

  lemma ValueIsClean(printer: Printer, kind: Kind, value: Value)
    requires ValidPrinter(printer) && Normalized(printer, kind, value)
    ensures Clean(RenderValue(printer, kind, value))
  {
    hide Quote, Join, Decimal, PlainText, Encodable, ConfigText.Items, EncodeUpstreams;
    match value {
      case WordsValue(words) => PlainIsClean(printer, words);
      case FlagValue(flag) =>
      case NumberValue(number) => DecimalReadsBack(number);
      case ListValue(items) => PlainIsClean(printer, Join(items, ','));
      case UpstreamsValue(upstreams) => PlainIsClean(printer, Join(EncodeUpstreams(upstreams), ','));
    }
  }

  lemma {:induction false} EntryLinesAreClean(printer: Printer, name: string, entries: seq<Entry>, config: Config)
    requires ValidPrinter(printer)
    requires forall entry :: entry in entries ==>
                           (name, entry.key) in config && Normalized(printer, entry.kind, config[(name, entry.key)])
    ensures CleanLines(EntryLines(printer, name, entries, config))
  {
    hide RenderValue, Normalized;
    if entries != [] {
      var first := entries[0];
      assert first in entries;
      ValueIsClean(printer, first.kind, config[(name, first.key)]);
      EntryLinesAreClean(printer, name, entries[1..], config);
    }
  }

  lemma {:induction false} SectionLinesAreClean(printer: Printer, sections: seq<Section>, config: Config)
    requires ValidPrinter(printer) && Complete(printer, sections, config)
    requires forall section :: section in sections ==> HasSettings(section, config)
    ensures CleanLines(SectionLines(printer, sections, config))
  {
    hide Normalized, EntryLines;
    if sections != [] {
      var first := sections[0];
      assert first in sections && HasSettings(first, config);
      EntryLinesAreClean(printer, first.name, first.entries, config);
      assert forall section :: section in sections[1..] ==> section in sections;
      SectionLinesAreClean(printer, sections[1..], config);
    }
  }

  lemma CompleteHasSettings(printer: Printer, sections: seq<Section>, config: Config)
    requires Complete(printer, sections, config)
    ensures forall section :: section in sections ==> HasSettings(section, config)
  {
  }

  /** Loading what is printed gives every printed setting back and leaves the others at their
      defaults, unless some line is longer than the scanner takes: then loading fails. */
  lemma ConfigReadsBack(printer: Printer, config: Config, defaults: Config, otherBase: string -> Option<nat>)
    ensures ValidPrinter(printer) && Complete(printer, SECTIONS, config) ==>
              && (forall section :: section in SECTIONS ==> HasSettings(section, config))
              && var loaded := Loaded(SECTIONS, State("", defaults), Lines(Render(printer, config)), otherBase);
                 if Fits(SectionLines(printer, SECTIONS, config)) then loaded.Success?
                 && Restored(loaded.value.config, config, defaults)
                 else loaded == Failure(TooLong)
  {
    if ValidPrinter(printer) && Complete(printer, SECTIONS, config) {
      CompleteReadsBack(printer, config, defaults, otherBase);
    }
  }

  /** Printed settings are back; the others are the defaults. */
  ghost predicate Restored(loaded: Config, config: Config, defaults: Config) {
    forall k :: (k in loaded <==> k in defaults || Printed(SECTIONS, k))
                && (Printed(SECTIONS, k) ==> k in config && k in loaded && loaded[k] == config[k])
                && (!Printed(SECTIONS, k) && k in defaults ==> k in loaded && loaded[k] == defaults[k])
  }

  lemma CompleteReadsBack(printer: Printer, config: Config, defaults: Config, otherBase: string -> Option<nat>)
    requires ValidPrinter(printer) && Complete(printer, SECTIONS, config)
    ensures forall section :: section in SECTIONS ==> HasSettings(section, config)
    ensures var loaded := Loaded(SECTIONS, State("", defaults), Lines(Render(printer, config)), otherBase);
            if Fits(SectionLines(printer, SECTIONS, config)) then loaded.Success?
            && Restored(loaded.value.config, config, defaults)
            else loaded == Failure(TooLong)
  {
    hide SECTIONS, Complete, HasSettings, SectionLines, Loaded, Lines, OverlayAll, WellNamed, PrintsAll, ValidPrinter,
      Printed, Fits;
    CompleteHasSettings(printer, SECTIONS, config);
    SettingsAreWellNamed();
    GatewayPrintsNoNetwork();
    SectionLinesAreClean(printer, SECTIONS, config);
    LinesReadBack(SectionLines(printer, SECTIONS, config));
    SectionsLoad(printer, SECTIONS, 0, config, State("", defaults), otherBase);
    assert SECTIONS[0..] == SECTIONS;
    forall k
      ensures var result := OverlayAll(defaults, SECTIONS, config);
              && (k in result <==> k in defaults || Printed(SECTIONS, k))
              && (Printed(SECTIONS, k) ==> k in config && result[k] == config[k])
              && (!Printed(SECTIONS, k) && k in defaults ==> result[k] == defaults[k])
    {
      OverlayAllGives(defaults, SECTIONS, config, k);
    }
  }
}
