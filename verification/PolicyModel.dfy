/** The declarative per-device policy document (`internal/device/policy.go`) and
    what makes one valid. Addresses are already parsed: a MAC or IPv4 text is
    classified by the datatypes below. */
module PolicyModel {
  import opened Text
  import opened Int64

  datatype MacText = NoMac | BadMac | Mac(address: nat)

  datatype IPv4Text = BadIPv4 | IPv4(address: nat)

  datatype RuleMatch = RuleMatch(
    domains: seq<string>, ipCidrs: seq<string>, protocols: seq<string>,
    ports: seq<string>, ruleSets: seq<string>, template: string)

  datatype Rule = Rule(
    id: string, when: RuleMatch, action: string, policies: seq<string>, onUnsupported: string)

  datatype Template = Template(
    id: string, defaultPolicies: seq<string>, onUnsupported: string,
    rules: seq<Rule>, ruleSets: seq<string>)

  datatype Profile = Profile(
    id: string, template: string, defaultPolicies: seq<string>, onUnsupported: string, rules: seq<Rule>)

  datatype RuleSet = RuleSet(
    id: string, kind: string, behavior: string, format: string,
    url: string, interval: int, payload: seq<string>)

  datatype ManagedDevice = ManagedDevice(
    id: string, name: string, mac: MacText, ipv4: IPv4Text, profile: string,
    gatewayTarget: string, dnsView: string, egressMode: string)

  datatype PolicySet = PolicySet(
    devices: seq<ManagedDevice>, profiles: seq<Profile>, ruleSets: seq<RuleSet>, templates: seq<Template>)

  /** Verdicts of the foreign text parsers (`net.ParseCIDR`, `url.Parse` with an http scheme and a host). */
  datatype Parsers = Parsers(cidrOk: string -> bool, httpUrlOk: string -> bool)

  const INHERIT_GLOBAL := "inherit_global"
  const DEDICATED := "dedicated"
  const LEGACY_FALLBACK := "legacy_fallback"
  const OPENSURGE := "opensurge"
  const UPSTREAM_ROUTER := "upstream_router"
  const MAX_VARIANTS := 256

  datatype PolicyError =
    | BadProfile(id: string)
    | BadTemplate(id: string)
    | BadRuleSet(id: string)
    | BadRule(owner: string, id: string)
    | BadDevice(id: string)
    | UnknownTemplate(id: string)
    | EmptyMatch
    | InRule(device: string, rule: string, cause: PolicyError)

  // ---- Effective values of optional fields ----

  function EffectiveEgressMode(mode: string): string {
    if mode == "" then LEGACY_FALLBACK else mode
  }

  function EffectiveGatewayTarget(target: string): string {
    if target == "" then OPENSURGE else target
  }

  function EffectiveDNSView(view: string): string {
    if view == "" then "auto" else view
  }

  function ResolveUnsupported(ruleValue: string, profileValue: string): string {
    if ruleValue != "" then ruleValue else if profileValue != "" then profileValue else "reject"
  }

  // ---- Lookup tables: the last entry with an id wins, as in a Go map ----

  function Table<T>(entries: seq<T>, key: T -> string): map<string, T> {
    if entries == [] then map[]
    else
      var last := entries[|entries| - 1];
      Table(entries[..|entries| - 1], key)[key(last) := last]
  }

  function ProfileID(profile: Profile): string { profile.id }

  function TemplateID(template: Template): string { template.id }

  function RuleSetID(ruleSet: RuleSet): string { ruleSet.id }

  function ProfileTable(profiles: seq<Profile>): map<string, Profile> {
    Table(profiles, ProfileID)
  }

  function TemplateTable(templates: seq<Template>): map<string, Template> {
    Table(templates, TemplateID)
  }

  function RuleSetTable(ruleSets: seq<RuleSet>): map<string, RuleSet> {
    Table(ruleSets, RuleSetID)
  }

  lemma {:induction false} TableEntry<T>(entries: seq<T>, key: T -> string, id: string)
    requires id in Table(entries, key)
    ensures exists i :: 0 <= i < |entries| && key(entries[i]) == id && Table(entries, key)[id] == entries[i]
  {
    var n := |entries| - 1;
    if key(entries[n]) != id {
      TableEntry(entries[..n], key, id);
      var i :| 0 <= i < n && key(entries[..n][i]) == id && Table(entries[..n], key)[id] == entries[..n][i];
      assert key(entries[i]) == id;
    }
  }

  lemma TableStep<T>(entries: seq<T>, key: T -> string, i: nat)
    requires i < |entries|
    ensures Table(entries[..i + 1], key) == Table(entries[..i], key)[key(entries[i]) := entries[i]]
  {
    assert entries[..i + 1][..i] == entries[..i];
  }

  lemma {:induction false} TableKeys<T>(entries: seq<T>, key: T -> string)
    ensures Table(entries, key).Keys == set i | 0 <= i < |entries| :: key(entries[i])
  {
    if entries != [] {
      TableKeys(entries[..|entries| - 1], key);
    }
  }

  // ---- Validity of single values ----

  /** `^[A-Za-z0-9_-]+$` */
  predicate ValidID(id: string) {
    id != "" && forall i :: 0 <= i < |id| ==>
      'A' <= id[i] <= 'Z' || 'a' <= id[i] <= 'z' || '0' <= id[i] <= '9' || id[i] == '_' || id[i] == '-'
  }

  predicate ValidPolicy(policy: string) {
    policy != "" && Trim(policy) == policy && Excludes(policy, {',', '\t', '\r', '\n'})
  }

  predicate ValidPolicyList(policies: seq<string>) {
    policies != [] && (forall i :: 0 <= i < |policies| ==> ValidPolicy(policies[i])) && Distinct(policies)
  }

  predicate ValidUnsupported(value: string) {
    value in {"", "reject", "fallthrough"}
  }

  predicate ValidDomain(domain: string) {
    domain != "" && Trim(domain) == domain && Excludes(domain, {',', '\t', '\r', '\n', '/', ':', ' '})
  }

  predicate ValidPortRange(port: string) {
    var parts := Split(port, '-');
    var first := Atoi(parts[0]);
    && |parts| <= 2 && port != ""
    && first.Some? && 1 <= first.value <= 65535
    && (|parts| == 2 ==> var last := Atoi(parts[1]); last.Some? && first.value <= last.value <= 65535)
  }

  predicate ValidDeviceName(name: string) {
    name == "" || (Trim(name) == name && |name| <= 80 && forall i :: 0 <= i < |name| ==> !IsControl(name[i]))
  }

  function NormalizedRuleSet(ruleSet: RuleSet): RuleSet {
    var kind := Lower(Trim(ruleSet.kind));
    var format := Lower(Trim(ruleSet.format));
    ruleSet.(
      kind := if kind == "" then "inline" else kind,
      behavior := Lower(Trim(ruleSet.behavior)),
      format := if format == "" then "yaml" else format)
  }

  predicate ValidRuleSet(ruleSet: RuleSet, parsers: Parsers) {
    var r := NormalizedRuleSet(ruleSet);
    && ValidID(r.id)
    && r.kind in {"inline", "http"}
    && (r.kind == "inline" ==> r.payload != [] && r.url == "")
    && (r.kind == "http" ==> parsers.httpUrlOk(r.url) && r.payload == [] && r.format in {"yaml", "text", "mrs"}
                             && !(r.format == "mrs" && r.behavior == "classical"))
    && r.behavior in {"domain", "ipcidr", "classical"}
    && r.interval >= 0
  }

  // ---- Matches ----

  function Factor(conditions: seq<string>): (n: nat)
    ensures n >= 1
  {
    if conditions == [] then 1 else |conditions|
  }

  /** `combinationCount`, with the multiplication of the source's machine integers. */
  function CombinationCount(when: RuleMatch, templates: map<string, Template>): int {
    if when.template != "" then
      if when.template in templates then |templates[when.template].ruleSets| else 0
    else
      WrapInt64(WrapInt64(WrapInt64(WrapInt64(
        Factor(when.domains) * Factor(when.ipCidrs)) * Factor(when.protocols)) * Factor(when.ports))
        * Factor(when.ruleSets))
  }

  /** How many value combinations the match really stands for. */
  function ExactCombinations(when: RuleMatch, templates: map<string, Template>): nat {
    if when.template != "" then
      if when.template in templates then |templates[when.template].ruleSets| else 0
    else
      Factor(when.domains) * Factor(when.ipCidrs) * Factor(when.protocols) * Factor(when.ports) * Factor(when.ruleSets)
  }

  predicate NoDirectConditions(when: RuleMatch) {
    when.domains == [] && when.ipCidrs == [] && when.protocols == [] && when.ports == [] && when.ruleSets == []
  }

  predicate ValidMatch(when: RuleMatch, ruleSets: set<string>, templates: map<string, Template>, parsers: Parsers) {
    && (if when.template != "" then
          NoDirectConditions(when) && when.template in templates && templates[when.template].ruleSets != []
        else !NoDirectConditions(when))
    && (forall i :: 0 <= i < |when.domains| ==> ValidDomain(when.domains[i]))
    && (forall i :: 0 <= i < |when.ipCidrs| ==> parsers.cidrOk(when.ipCidrs[i]))
    && (forall i :: 0 <= i < |when.protocols| ==> Lower(when.protocols[i]) in {"tcp", "udp"})
    && (forall i :: 0 <= i < |when.ports| ==> ValidPortRange(when.ports[i]))
    && (forall i :: 0 <= i < |when.ruleSets| ==> when.ruleSets[i] in ruleSets)
    && CombinationCount(when, templates) <= MAX_VARIANTS
  }

  predicate ValidRule(rule: Rule, ruleSets: set<string>, templates: map<string, Template>, parsers: Parsers) {
    && ValidID(rule.id) && rule.id != "default"
    && ValidMatch(rule.when, ruleSets, templates, parsers)
    && ValidUnsupported(rule.onUnsupported)
    && (if rule.policies != [] then rule.action == "" && ValidPolicyList(rule.policies) else ValidPolicy(rule.action))
  }

  predicate DistinctRuleIDs(rules: seq<Rule>) {
    forall i, j :: 0 <= i < j < |rules| ==> rules[i].id != rules[j].id
  }

  predicate ValidRules(rules: seq<Rule>, ruleSets: set<string>, templates: map<string, Template>, parsers: Parsers) {
    && (forall i :: 0 <= i < |rules| ==> ValidRule(rules[i], ruleSets, templates, parsers))
    && DistinctRuleIDs(rules)
  }

  // ---- Profiles ----

  /** `resolveProfile`: a profile laid over its template. */
  function ResolveProfile(profile: Profile, templates: map<string, Template>): Result<Profile, PolicyError> {
    if profile.template == "" then Success(profile)
    else if profile.template !in templates then Failure(UnknownTemplate(profile.template))
    else
      var template := templates[profile.template];
      Success(Profile(
        profile.id, "",
        if profile.defaultPolicies != [] then profile.defaultPolicies else template.defaultPolicies,
        if profile.onUnsupported != "" then profile.onUnsupported else template.onUnsupported,
        template.rules + profile.rules))
  }

  predicate ValidTemplateHead(template: Template) {
    && ValidID(template.id)
    && (template.defaultPolicies != [] ==> ValidPolicyList(template.defaultPolicies))
    && ValidUnsupported(template.onUnsupported)
  }

  predicate ValidTemplateBody(template: Template, ruleSets: set<string>, templates: map<string, Template>,
      parsers: Parsers) {
    && (forall i :: 0 <= i < |template.ruleSets| ==> template.ruleSets[i] in ruleSets)
    && ValidRules(template.rules, ruleSets, templates, parsers)
  }

  predicate ValidProfile(profile: Profile, ruleSets: set<string>, templates: map<string, Template>, parsers: Parsers) {
    var resolved := ResolveProfile(profile, templates);
    && (profile.defaultPolicies != [] ==> ValidPolicyList(profile.defaultPolicies))
    && ValidUnsupported(profile.onUnsupported)
    && resolved.Success?
    && resolved.value.defaultPolicies != []
    && ValidRules(resolved.value.rules, ruleSets, templates, parsers)
  }

  // ---- Devices ----

  predicate ValidDevice(device: ManagedDevice, profiles: set<string>) {
    && ValidID(device.id)
    && ValidDeviceName(device.name)
    && !device.mac.BadMac?
    && device.ipv4.IPv4?
    && device.profile in profiles
    && device.egressMode in {"", INHERIT_GLOBAL, DEDICATED}
    && device.gatewayTarget in {"", OPENSURGE, UPSTREAM_ROUTER}
    && device.dnsView in {"", "auto", "gateway", "resolver"}
    && !(UsesUpstreamRouter(device) && EffectiveDNSView(device.dnsView) == "gateway")
    && !(UsesUpstreamRouter(device) && device.mac.NoMac?)
  }

  predicate UsesUpstreamRouter(device: ManagedDevice) {
    EffectiveGatewayTarget(device.gatewayTarget) == UPSTREAM_ROUTER
  }

  /** Two devices share an identity: id, address, or a stated MAC. */
  predicate Clash(a: ManagedDevice, b: ManagedDevice) {
    a.id == b.id || a.ipv4 == b.ipv4 || (a.mac.Mac? && a.mac == b.mac)
  }

  predicate DistinctDevices(devices: seq<ManagedDevice>) {
    forall i, j :: 0 <= i < j < |devices| ==> !Clash(devices[i], devices[j])
  }

  predicate ValidDevices(devices: seq<ManagedDevice>, profiles: set<string>) {
    && (forall i :: 0 <= i < |devices| ==> ValidDevice(devices[i], profiles))
    && DistinctDevices(devices)
  }

  // ---- Whole documents ----

  predicate ValidProfileIDs(profiles: seq<Profile>) {
    && (forall i :: 0 <= i < |profiles| ==> ValidID(profiles[i].id))
    && forall i, j :: 0 <= i < j < |profiles| ==> profiles[i].id != profiles[j].id
  }

  predicate ValidTemplateHeads(templates: seq<Template>) {
    && (forall i :: 0 <= i < |templates| ==> ValidTemplateHead(templates[i]))
    && forall i, j :: 0 <= i < j < |templates| ==> templates[i].id != templates[j].id
  }

  predicate ValidRuleSets(ruleSets: seq<RuleSet>, parsers: Parsers) {
    && (forall i :: 0 <= i < |ruleSets| ==> ValidRuleSet(ruleSets[i], parsers))
    && forall i, j :: 0 <= i < j < |ruleSets| ==> ruleSets[i].id != ruleSets[j].id
  }

  predicate ValidPolicySet(policy: PolicySet, parsers: Parsers) {
    var templates := TemplateTable(policy.templates);
    var ruleSets := RuleSetTable(policy.ruleSets).Keys;
    && ValidProfileIDs(policy.profiles)
    && ValidTemplateHeads(policy.templates)
    && ValidRuleSets(policy.ruleSets, parsers)
    && (forall i :: 0 <= i < |policy.templates| ==>
          ValidTemplateBody(policy.templates[i], ruleSets, templates, parsers))
    && (forall i :: 0 <= i < |policy.profiles| ==> ValidProfile(policy.profiles[i], ruleSets, templates, parsers))
    && ValidDevices(policy.devices, ProfileTable(policy.profiles).Keys)
  }
}
