/** Compilation of a policy document into one flat first-match rule list, selector
    groups and rule providers (`compilePolicySet` and `resolution.go`). Each method
    is proved against a specification function of the same shape. */
module PolicyCompiler {
  import opened Text
  import opened PolicyModel

  // ---- What compilation produces ----

  datatype Condition =
    | SourceIP(address: nat)
    | DomainSuffix(domain: string)
    | IPCidr(cidr: string)
    | Network(protocol: string)
    | DstPort(port: string)
    | InRuleSet(provider: string)

  /** An AND over `payloads` that sends the packet to `target`. */
  datatype FlatRule = FlatRule(payloads: seq<Condition>, target: string)

  datatype SelectorGroup = SelectorGroup(name: string, policies: seq<string>)

  datatype RuleProvider = RuleProvider(name: string, source: RuleSet)

  datatype Reservation = Reservation(id: string, mac: nat, ipv4: nat, gatewayTarget: string)

  datatype Effect = InheritGlobal | SkipRule | FilterCandidates

  datatype PolicyAdjustment = PolicyAdjustment(slot: string, effect: Effect, missing: seq<string>, selected: string)

  datatype CompiledDevice = CompiledDevice(
    id: string, mac: Option<nat>, ipv4: nat, profile: string, gatewayTarget: string, dnsView: string,
    egressMode: string, configuredEgressMode: string,
    adjustments: seq<PolicyAdjustment>, groups: map<string, string>)

  /** Everything but the rule providers, which depend on the whole document. */
  datatype Sections = Sections(
    reservations: seq<Reservation>, selectorGroups: seq<SelectorGroup>, overrideRules: seq<FlatRule>,
    dedicatedRules: seq<FlatRule>, defaultRules: seq<FlatRule>, devices: seq<CompiledDevice>,
    selectorTargets: seq<string>, actionTargets: seq<string>, usedRuleSets: set<string>)

  datatype CompiledPolicy = CompiledPolicy(sections: Sections, ruleProviders: seq<RuleProvider>)

  const EMPTY := Sections([], [], [], [], [], [], [], [], {})

  function Append(a: Sections, b: Sections): Sections {
    Sections(
      a.reservations + b.reservations, a.selectorGroups + b.selectorGroups, a.overrideRules + b.overrideRules,
      a.dedicatedRules + b.dedicatedRules, a.defaultRules + b.defaultRules, a.devices + b.devices,
      a.selectorTargets + b.selectorTargets, a.actionTargets + b.actionTargets, a.usedRuleSets + b.usedRuleSets)
  }

  function DeviceGroupName(device: string, slot: string): string {
    "device/" + device + "/" + slot
  }

  function RuleSetProviderName(id: string): string {
    "open-surge-ruleset-" + id
  }

  predicate BuiltIn(target: string) {
    Upper(target) in {"DIRECT", "REJECT", "REJECT-DROP", "REJECT-TINYGIF"}
  }

  // ---- Resolution against a live inventory ----

  datatype PolicyResolution = PolicyResolution(
    availableTargets: seq<string>, selections: map<string, string>, selectionsUnavailable: bool)

  type Inventory = Option<PolicyResolution>

  predicate TargetAvailable(inventory: Inventory, target: string) {
    inventory.None? || BuiltIn(target) || target in inventory.value.availableTargets
  }

  function Keep(candidates: seq<string>, inventory: Inventory, available: bool): seq<string> {
    if candidates == [] then []
    else
      var last := candidates[|candidates| - 1];
      Keep(candidates[..|candidates| - 1], inventory, available) + if TargetAvailable(inventory, last) == available then
        [last] else []
  }

  /** The remembered choice, or the first candidate when the choice is no longer a candidate. */
  function EffectiveSelection(resolution: PolicyResolution, group: string, candidates: seq<string>): string {
    var remembered := if group in resolution.selections then resolution.selections[group] else "";
    if remembered !in candidates && candidates != [] then candidates[0] else remembered
  }

  predicate SelectionUnknown(resolution: PolicyResolution, group: string) {
    (group in resolution.selections ==> resolution.selections[group] == "") && resolution.selectionsUnavailable
  }

  function Position(xs: seq<string>, x: string): (i: nat)
    ensures i <= |xs|
    ensures i < |xs| ==> xs[i] == x
    ensures x !in xs[..i]
  {
    if xs == [] || xs[0] == x then 0 else 1 + Position(xs[1..], x)
  }

  function MoveToFront(xs: seq<string>, x: string): seq<string> {
    var i := Position(xs, x);
    if 0 < i < |xs| then [x] + xs[..i] + xs[i + 1..] else xs
  }

  function SelectorFallback(slot: string): Effect {
    if slot == "default" then InheritGlobal else SkipRule
  }

  function ResolvedSelector(inventory: Inventory, device: string, slot: string, candidates: seq<string>)
    : (seq<string>, Option<PolicyAdjustment>)
  {
    if inventory.None? then (candidates, None)
    else
      var available, missing := Keep(candidates, inventory, true), Keep(candidates, inventory, false);
      if missing == [] then (available, None)
      else
        var group := DeviceGroupName(device, slot);
        var selected := EffectiveSelection(inventory.value, group, candidates);
        if available == [] || SelectionUnknown(inventory.value, group) || !TargetAvailable(inventory, selected) then
          ([], Some(PolicyAdjustment(slot, SelectorFallback(slot), missing, selected)))
        else
          (MoveToFront(available, selected), Some(PolicyAdjustment(slot, FilterCandidates, missing, selected)))
  }

  method ResolveSelector(inventory: Inventory, device: string, slot: string, candidates: seq<string>)
    returns (policies: seq<string>, adjustment: Option<PolicyAdjustment>)
    ensures (policies, adjustment) == ResolvedSelector(inventory, device, slot, candidates)
  {
    hide TargetAvailable, BuiltIn, EffectiveSelection, SelectionUnknown, MoveToFront;
    if inventory.None? {
      return candidates, None;
    }
    var available, missing := [], [];
    for i := 0 to |candidates|
      invariant available == Keep(candidates[..i], inventory, true)
      invariant missing == Keep(candidates[..i], inventory, false)
    {
      assert candidates[..i + 1][..i] == candidates[..i];
      if TargetAvailable(inventory, candidates[i]) {
        available := available + [candidates[i]];
      } else {
        missing := missing + [candidates[i]];
      }
    }
    assert candidates[..|candidates|] == candidates;
    if |missing| == 0 {
      return available, None;
    }
    var group := DeviceGroupName(device, slot);
    var selected := EffectiveSelection(inventory.value, group, candidates);
    if |available| == 0 || SelectionUnknown(inventory.value, group) || !TargetAvailable(inventory, selected) {
      return [], Some(PolicyAdjustment(slot, SelectorFallback(slot), missing, selected));
    }
    return MoveToFront(available, selected), Some(PolicyAdjustment(slot, FilterCandidates, missing, selected));
  }

  // ---- Cartesian expansion of a match ----

  type Variants = seq<seq<Condition>>

  function DomainConditions(domains: seq<string>): seq<Condition> {
    seq(|domains|, i requires 0 <= i < |domains| => DomainSuffix(Lower(domains[i])))
  }

  function CidrConditions(cidrs: seq<string>): seq<Condition> {
    seq(|cidrs|, i requires 0 <= i < |cidrs| => IPCidr(cidrs[i]))
  }

  function ProtocolConditions(protocols: seq<string>): seq<Condition> {
    seq(|protocols|, i requires 0 <= i < |protocols| => Network(Lower(protocols[i])))
  }

  function PortConditions(ports: seq<string>): seq<Condition> {
    seq(|ports|, i requires 0 <= i < |ports| => DstPort(ports[i]))
  }

  function RuleSetConditions(ids: seq<string>): seq<Condition> {
    seq(|ids|, i requires 0 <= i < |ids| => InRuleSet(RuleSetProviderName(ids[i])))
  }

  /** `prior` followed by each of the first `n` conditions. */
  function Extensions(prior: seq<Condition>, conditions: seq<Condition>, n: nat): (r: Variants)
    requires n <= |conditions|
    ensures |r| == n
  {
    seq(n, j requires 0 <= j < n => prior + [conditions[j]])
  }

  function Cross(existing: Variants, conditions: seq<Condition>): Variants {
    if existing == [] then []
    else
      var n := |existing| - 1;
      Cross(existing[..n], conditions) + Extensions(existing[n], conditions, |conditions|)
  }

  function WithDimension(existing: Variants, conditions: seq<Condition>): Variants {
    if conditions == [] then existing else Cross(existing, conditions)
  }

  method AppendConditionDimension(existing: Variants, conditions: seq<Condition>) returns (next: Variants)
    ensures next == WithDimension(existing, conditions)
  {
    if |conditions| == 0 {
      return existing;
    }
    next := [];
    for i := 0 to |existing|
      invariant next == Cross(existing[..i], conditions)
    {
      assert existing[..i + 1][..i] == existing[..i];
      for j := 0 to |conditions|
        invariant next == Cross(existing[..i], conditions) + Extensions(existing[i], conditions, j)
      {
        var variant := existing[i] + [conditions[j]];
        assert Extensions(existing[i], conditions, j + 1) == Extensions(existing[i], conditions, j) + [variant];
        next := next + [variant];
      }
    }
    assert existing[..|existing|] == existing;
  }

  /** A template reference stands for the template's rule sets. */
  function Expanded(when: RuleMatch, templates: map<string, Template>): RuleMatch
    requires when.template != "" ==> when.template in templates
  {
    if when.template != "" then when.(ruleSets := templates[when.template].ruleSets, template := "") else when
  }

  function ExpandedVariants(when: RuleMatch): Variants {
    WithDimension(WithDimension(WithDimension(WithDimension(WithDimension([[]],
      DomainConditions(when.domains)),
      CidrConditions(when.ipCidrs)),
      ProtocolConditions(when.protocols)),
      PortConditions(when.ports)),
      RuleSetConditions(when.ruleSets))
  }

  datatype MatchExpansion = MatchExpansion(variants: Variants, references: seq<string>)

  function ExpandedMatch(when: RuleMatch, templates: map<string, Template>): Result<MatchExpansion, PolicyError> {
    if when.template != "" && when.template !in templates then Failure(UnknownTemplate(when.template))
    else
      var expanded := Expanded(when, templates);
      var variants := ExpandedVariants(expanded);
      if |variants| == 0 || |variants[0]| == 0 then Failure(EmptyMatch)
      else Success(MatchExpansion(variants, expanded.ruleSets))
  }

  method RuleVariants(when: RuleMatch, templates: map<string, Template>)
    returns (expansion: Result<MatchExpansion, PolicyError>)
    ensures expansion == ExpandedMatch(when, templates)
  {
    hide WithDimension;
    if when.template != "" && when.template !in templates {
      return Failure(UnknownTemplate(when.template));
    }
    var expanded := Expanded(when, templates);
    var variants: Variants := [[]];
    variants := AppendConditionDimension(variants, DomainConditions(expanded.domains));
    variants := AppendConditionDimension(variants, CidrConditions(expanded.ipCidrs));
    variants := AppendConditionDimension(variants, ProtocolConditions(expanded.protocols));
    variants := AppendConditionDimension(variants, PortConditions(expanded.ports));
    variants := AppendConditionDimension(variants, RuleSetConditions(expanded.ruleSets));
    if |variants| == 0 || |variants[0]| == 0 {
      return Failure(EmptyMatch);
    }
    return Success(MatchExpansion(variants, expanded.ruleSets));
  }

  // ---- One rule of one device ----

  /** The rules one variant becomes: itself, and a REJECT behind a target that may not carry the packet. */
  function VariantRules(address: nat, variant: seq<Condition>, target: string, reject: bool): seq<FlatRule> {
    var payloads := [SourceIP(address)] + variant;
    [FlatRule(payloads, target)] + if reject && !BuiltIn(target) then [FlatRule(payloads, "REJECT")] else []
  }

  function AllVariantRules(address: nat, variants: Variants, target: string, reject: bool): seq<FlatRule> {
    if variants == [] then []
    else
      var n := |variants| - 1;
      AllVariantRules(address, variants[..n], target, reject) + VariantRules(address, variants[n], target, reject)
  }

  /** What the rules of one device contribute. */
  datatype RulesOutput = RulesOutput(
    groups: map<string, string>, adjustments: seq<PolicyAdjustment>, selectorGroups: seq<SelectorGroup>,
    selectorTargets: seq<string>, actionTargets: seq<string>, overrideRules: seq<FlatRule>, usedRuleSets: set<string>)

  const NO_RULES := RulesOutput(map[], [], [], [], [], [], {})

  function Merge(a: RulesOutput, b: RulesOutput): RulesOutput {
    RulesOutput(
      a.groups + b.groups, a.adjustments + b.adjustments, a.selectorGroups + b.selectorGroups,
      a.selectorTargets + b.selectorTargets, a.actionTargets + b.actionTargets,
      a.overrideRules + b.overrideRules, a.usedRuleSets + b.usedRuleSets)
  }

  function AsSequence<T>(option: Option<T>): seq<T> {
    if option.Some? then [option.value] else []
  }

  /** The part of a rule's output that does not depend on its match, and the target its variants get. */
  function RuleTarget(device: string, rule: Rule, inventory: Inventory): (RulesOutput, Option<string>) {
    if rule.policies != [] then
      var (policies, adjustment) := ResolvedSelector(inventory, device, rule.id, rule.policies);
      var output := NO_RULES.(adjustments := AsSequence(adjustment));
      if policies == [] then (output, None)
      else
        var group := DeviceGroupName(device, rule.id);
        (output.(groups := map[rule.id := group], selectorGroups := [SelectorGroup(group, policies)],
                 selectorTargets := policies),
         Some(group))
    else if !TargetAvailable(inventory, rule.action) then
      (NO_RULES.(adjustments := [PolicyAdjustment(rule.id, SkipRule, [rule.action], "")]), None)
    else
      (NO_RULES.(actionTargets := [rule.action]), Some(rule.action))
  }

  function CompiledRule(device: string, address: nat, rule: Rule, profileUnsupported: string,
                        templates: map<string, Template>, inventory: Inventory): Result<RulesOutput, PolicyError>
  {
    var (output, target) := RuleTarget(device, rule, inventory);
    if target.None? then Success(output)
    else
      match ExpandedMatch(rule.when, templates)
      case Failure(cause) => Failure(InRule(device, rule.id, cause))
      case Success(expansion) =>
        var reject := ResolveUnsupported(rule.onUnsupported, profileUnsupported) == "reject";
        Success(output.(
          overrideRules := AllVariantRules(address, expansion.variants, target.value, reject),
          usedRuleSets := Elements(expansion.references)))
  }

  function CompiledRules(device: string, address: nat, rules: seq<Rule>, profileUnsupported: string,
                         templates: map<string, Template>, inventory: Inventory): Result<RulesOutput, PolicyError>
  {
    if rules == [] then Success(NO_RULES)
    else
      var n := |rules| - 1;
      match CompiledRules(device, address, rules[..n], profileUnsupported, templates, inventory)
      case Failure(cause) => Failure(cause)
      case Success(before) =>
        match CompiledRule(device, address, rules[n], profileUnsupported, templates, inventory)
        case Failure(cause) => Failure(cause)
        case Success(output) => Success(Merge(before, output))
  }

  method CompileRule(device: string, address: nat, rule: Rule, profileUnsupported: string,
                     templates: map<string, Template>, inventory: Inventory)
    returns (compiled: Result<RulesOutput, PolicyError>)
    ensures compiled == CompiledRule(device, address, rule, profileUnsupported, templates, inventory)
  {
    hide ResolvedSelector, ExpandedMatch, VariantRules, TargetAvailable;
    var output, action := NO_RULES, rule.action;
    if |rule.policies| > 0 {
      var policies, adjustment := ResolveSelector(inventory, device, rule.id, rule.policies);
      if adjustment.Some? {
        output := output.(adjustments := [adjustment.value]);
      }
      if |policies| == 0 {
        return Success(output);
      }
      action := DeviceGroupName(device, rule.id);
      output := output.(groups := map[rule.id := action], selectorGroups := [SelectorGroup(action, policies)],
        selectorTargets := policies);
    } else {
      if !TargetAvailable(inventory, action) {
        return Success(output.(adjustments := [PolicyAdjustment(rule.id, SkipRule, [action], "")]));
      }
      output := output.(actionTargets := [action]);
    }
    var expansion := RuleVariants(rule.when, templates);
    if expansion.Failure? {
      return Failure(InRule(device, rule.id, expansion.error));
    }
    var variants, reject := expansion.value.variants, ResolveUnsupported(rule.onUnsupported, profileUnsupported)
    == "reject";
    var overrides := [];
    for k := 0 to |variants|
      invariant overrides == AllVariantRules(address, variants[..k], action, reject)
    {
      assert variants[..k + 1][..k] == variants[..k];
      overrides := overrides + VariantRules(address, variants[k], action, reject);
    }
    assert variants[..|variants|] == variants;
    return Success(output.(overrideRules := overrides, usedRuleSets := Elements(expansion.value.references)));
  }

  method CompileRules(device: string, address: nat, rules: seq<Rule>, profileUnsupported: string,
                      templates: map<string, Template>, inventory: Inventory)
    returns (compiled: Result<RulesOutput, PolicyError>)
    ensures compiled == CompiledRules(device, address, rules, profileUnsupported, templates, inventory)
  {
    hide CompiledRule, Merge;
    var output := NO_RULES;
    for i := 0 to |rules|
      invariant CompiledRules(device, address, rules[..i], profileUnsupported, templates, inventory) == Success(output)
    {
      assert rules[..i + 1][..i] == rules[..i];
      var one := CompileRule(device, address, rules[i], profileUnsupported, templates, inventory);
      if one.Failure? {
        FailureStops(device, address, rules, i + 1, profileUnsupported, templates, inventory);
        return Failure(one.error);
      }
      output := Merge(output, one.value);
    }
    assert rules[..|rules|] == rules;
    return Success(output);
  }

  lemma {:induction false} FailureStops(device: string, address: nat, rules: seq<Rule>, n: nat,
      profileUnsupported: string,
                                        templates: map<string, Template>, inventory: Inventory)
    requires n <= |rules|
    requires CompiledRules(device, address, rules[..n], profileUnsupported, templates, inventory).Failure?
    ensures CompiledRules(device, address, rules, profileUnsupported, templates, inventory)
         == CompiledRules(device, address, rules[..n], profileUnsupported, templates, inventory)
    decreases |rules|
  {
    if n == |rules| {
      assert rules[..n] == rules;
    } else {
      assert rules[..|rules| - 1][..n] == rules[..n];
      FailureStops(device, address, rules[..|rules| - 1], n, profileUnsupported, templates, inventory);
    }
  }

  // ---- One device ----

  predicate Active(device: ManagedDevice, ipOnlyDevicesActive: bool) {
    ipOnlyDevicesActive || !device.mac.NoMac?
  }

  function CanonicalMAC(mac: MacText): Option<nat> {
    if mac.Mac? then Some(mac.address) else None
  }

  function BareDevice(managed: ManagedDevice, profile: Profile): CompiledDevice
    requires managed.ipv4.IPv4?
  {
    CompiledDevice(managed.id, CanonicalMAC(managed.mac), managed.ipv4.address, profile.id,
      EffectiveGatewayTarget(managed.gatewayTarget), EffectiveDNSView(managed.dnsView),
      EffectiveEgressMode(managed.egressMode), "", [], map[])
  }

  function DeviceReservation(managed: ManagedDevice): seq<Reservation>
    requires managed.ipv4.IPv4?
  {
    if managed.mac.Mac? then
      [Reservation(managed.id, managed.mac.address, managed.ipv4.address,
                   EffectiveGatewayTarget(managed.gatewayTarget))]
    else []
  }

  /** The catch-all rules of a device behind its own selector. */
  function CatchAll(address: nat, device: string, profileUnsupported: string): seq<FlatRule> {
    [FlatRule([SourceIP(address)], DeviceGroupName(device, "default"))]
    + if ResolveUnsupported("", profileUnsupported) == "reject" then [FlatRule([SourceIP(address)], "REJECT")] else []
  }

  /** Candidates and adjustment of the device's own default selector; none in inherit-global mode. */
  function DefaultSelector(managed: ManagedDevice, profile: Profile, inventory: Inventory): (seq<string>,
      Option<PolicyAdjustment>) {
    if EffectiveEgressMode(managed.egressMode) == INHERIT_GLOBAL then ([], None)
    else ResolvedSelector(inventory, managed.id, "default", profile.defaultPolicies)
  }

  function DeviceSections(managed: ManagedDevice, profile: Profile, rules: RulesOutput, inventory: Inventory): Sections
    requires managed.ipv4.IPv4?
  {
    var address, mode := managed.ipv4.address, EffectiveEgressMode(managed.egressMode);
    var (policies, adjustment) := DefaultSelector(managed, profile, inventory);
    var own := policies != [];
    var demoted := !own && mode != INHERIT_GLOBAL;
    var group := DeviceGroupName(managed.id, "default");
    var catchAll := CatchAll(address, managed.id, profile.onUnsupported);
    Sections(
      DeviceReservation(managed),
      (if own then [SelectorGroup(group, policies)] else []) + rules.selectorGroups,
      rules.overrideRules,
      if own && mode == DEDICATED then catchAll else [],
      if own && mode == LEGACY_FALLBACK then catchAll else [],
      [BareDevice(managed, profile).(
         egressMode := if demoted then INHERIT_GLOBAL else mode,
         configuredEgressMode := if demoted then mode else "",
         adjustments := AsSequence(adjustment) + rules.adjustments,
         groups := (if own then map["default" := group] else map[]) + rules.groups)],
      policies + rules.selectorTargets,
      rules.actionTargets,
      rules.usedRuleSets)
  }

  function CompiledRoutedDevice(managed: ManagedDevice, profile: Profile, templates: map<string, Template>,
      inventory: Inventory)
    : Result<Sections, PolicyError>
    requires managed.ipv4.IPv4?
  {
    match CompiledRules(managed.id, managed.ipv4.address, profile.rules, profile.onUnsupported, templates, inventory)
    case Failure(cause) => Failure(cause)
    case Success(rules) => Success(DeviceSections(managed, profile, rules, inventory))
  }

  function CompiledDeviceSections(managed: ManagedDevice, profiles: map<string, Profile>, templates: map<string,
      Template>,
                                  ipOnlyDevicesActive: bool, inventory: Inventory): Result<Sections, PolicyError>
    requires managed.ipv4.IPv4?
  {
    if !Active(managed, ipOnlyDevicesActive) then Success(EMPTY)
    else
      match ResolveProfile(ProfileOf(managed, profiles), templates)
      case Failure(cause) => Failure(cause)
      case Success(profile) =>
        if UsesUpstreamRouter(managed) then
          Success(EMPTY.(reservations := DeviceReservation(managed), devices := [BareDevice(managed, profile)]))
        else
          CompiledRoutedDevice(managed, profile, templates, inventory)
  }

  /** A Go map read: the zero profile when the id is absent. */
  function ProfileOf(managed: ManagedDevice, profiles: map<string, Profile>): Profile {
    if managed.profile in profiles then profiles[managed.profile] else Profile("", "", [], "", [])
  }

  /** A device on the OpenSurge data path: default selector, rules, catch-all. */
  method CompileRoutedDevice(managed: ManagedDevice, profile: Profile, templates: map<string, Template>,
      inventory: Inventory)
    returns (compiled: Result<Sections, PolicyError>)
    requires managed.ipv4.IPv4?
    ensures compiled == CompiledRoutedDevice(managed, profile, templates, inventory)
  {
    hide CompiledRules, ResolvedSelector, CatchAll, DeviceReservation;
    var device, address := BareDevice(managed, profile), managed.ipv4.address;
    var sections := EMPTY.(reservations := DeviceReservation(managed));
    var defaultGroup := DeviceGroupName(device.id, "default");
    if device.egressMode != INHERIT_GLOBAL {
      var policies, adjustment := ResolveSelector(inventory, device.id, "default", profile.defaultPolicies);
      device := device.(adjustments := AsSequence(adjustment));
      if |policies| == 0 {
        device := device.(configuredEgressMode := device.egressMode, egressMode := INHERIT_GLOBAL);
      } else {
        device := device.(groups := map["default" := defaultGroup]);
        sections := sections.(selectorGroups := [SelectorGroup(defaultGroup, policies)], selectorTargets := policies);
      }
    }
    var rules := CompileRules(device.id, address, profile.rules, profile.onUnsupported, templates, inventory);
    if rules.Failure? {
      return Failure(rules.error);
    }
    device := device.(adjustments := device.adjustments + rules.value.adjustments,
      groups := device.groups + rules.value.groups);
    var defaultRules := CatchAll(address, device.id, profile.onUnsupported);
    return Success(sections.(
      selectorGroups := sections.selectorGroups + rules.value.selectorGroups,
      overrideRules := rules.value.overrideRules,
      dedicatedRules := if device.egressMode == DEDICATED then defaultRules else [],
      defaultRules := if device.egressMode == LEGACY_FALLBACK then defaultRules else [],
      devices := [device],
      selectorTargets := sections.selectorTargets + rules.value.selectorTargets,
      actionTargets := rules.value.actionTargets,
      usedRuleSets := rules.value.usedRuleSets));
  }

  method CompileDevice(managed: ManagedDevice, profiles: map<string, Profile>, templates: map<string, Template>,
                       ipOnlyDevicesActive: bool, inventory: Inventory)
    returns (compiled: Result<Sections, PolicyError>)
    requires managed.ipv4.IPv4?
    ensures compiled == CompiledDeviceSections(managed, profiles, templates, ipOnlyDevicesActive, inventory)
  {
    hide CompiledRoutedDevice, ResolveProfile;
    if !ipOnlyDevicesActive && managed.mac.NoMac? {
      return Success(EMPTY);
    }
    var resolved := ResolveProfile(ProfileOf(managed, profiles), templates);
    if resolved.Failure? {
      return Failure(resolved.error);
    }
    var device, reservations := BareDevice(managed, resolved.value), [];
    if device.mac.Some? {
      reservations := [Reservation(device.id, device.mac.value, device.ipv4, device.gatewayTarget)];
    }
    if device.gatewayTarget == UPSTREAM_ROUTER {
      return Success(EMPTY.(reservations := reservations, devices := [device]));
    }
    compiled := CompileRoutedDevice(managed, resolved.value, templates, inventory);
  }

  // ---- The whole document ----

  predicate AddressesParsed(devices: seq<ManagedDevice>) {
    forall i :: 0 <= i < |devices| ==> devices[i].ipv4.IPv4?
  }

  function CompiledSections(devices: seq<ManagedDevice>, profiles: map<string, Profile>, templates: map<string,
      Template>,
                            ipOnlyDevicesActive: bool, inventory: Inventory): Result<Sections, PolicyError>
    requires AddressesParsed(devices)
  {
    if devices == [] then Success(EMPTY)
    else
      var n := |devices| - 1;
      match CompiledSections(devices[..n], profiles, templates, ipOnlyDevicesActive, inventory)
      case Failure(cause) => Failure(cause)
      case Success(before) =>
        match CompiledDeviceSections(devices[n], profiles, templates, ipOnlyDevicesActive, inventory)
        case Failure(cause) => Failure(cause)
        case Success(sections) => Success(Append(before, sections))
  }

  lemma {:induction false} FailedDeviceStops(devices: seq<ManagedDevice>, n: nat, profiles: map<string, Profile>,
                                             templates: map<string, Template>, ipOnlyDevicesActive: bool,
                                             inventory: Inventory)
    requires n <= |devices| && AddressesParsed(devices)
    requires CompiledSections(devices[..n], profiles, templates, ipOnlyDevicesActive, inventory).Failure?
    ensures CompiledSections(devices, profiles, templates, ipOnlyDevicesActive, inventory)
         == CompiledSections(devices[..n], profiles, templates, ipOnlyDevicesActive, inventory)
    decreases |devices|
  {
    if n == |devices| {
      assert devices[..n] == devices;
    } else {
      assert devices[..|devices| - 1][..n] == devices[..n];
      FailedDeviceStops(devices[..|devices| - 1], n, profiles, templates, ipOnlyDevicesActive, inventory);
    }
  }

  method CompileDevices(devices: seq<ManagedDevice>, profiles: map<string, Profile>, templates: map<string, Template>,
                        ipOnlyDevicesActive: bool, inventory: Inventory)
    returns (compiled: Result<Sections, PolicyError>)
    requires AddressesParsed(devices)
    ensures compiled == CompiledSections(devices, profiles, templates, ipOnlyDevicesActive, inventory)
  {
    hide CompiledDeviceSections, Append;
    var sections := EMPTY;
    for i := 0 to |devices|
      invariant CompiledSections(devices[..i], profiles, templates, ipOnlyDevicesActive, inventory) == Success(sections)
    {
      assert devices[..i + 1][..i] == devices[..i];
      var one := CompileDevice(devices[i], profiles, templates, ipOnlyDevicesActive, inventory);
      if one.Failure? {
        FailedDeviceStops(devices, i + 1, profiles, templates, ipOnlyDevicesActive, inventory);
        return Failure(one.error);
      }
      sections := Append(sections, one.value);
    }
    assert devices[..|devices|] == devices;
    return Success(sections);
  }

  /** Rule providers in ascending order of rule-set id. */
  method CompileProviders(used: set<string>, ruleSets: map<string, RuleSet>)
    returns (ids: seq<string>, providers: seq<RuleProvider>)
    requires used <= ruleSets.Keys
    ensures StrictlySorted(ids) && Elements(ids) == used
    ensures |providers| == |ids|
    ensures forall i :: 0 <= i < |ids| ==>
      ids[i] in ruleSets && providers[i]
      == RuleProvider(RuleSetProviderName(ids[i]), NormalizedRuleSet(ruleSets[ids[i]]))
  {
    hide NormalizedRuleSet, RuleSetProviderName, StrictlySorted;
    ids := SortedKeys(used);
    assert forall i :: 0 <= i < |ids| ==> ids[i] in Elements(ids);
    providers := [];
    for i := 0 to |ids|
      invariant |providers| == i
      invariant forall k :: 0 <= k < i ==>
        providers[k] == RuleProvider(RuleSetProviderName(ids[k]), NormalizedRuleSet(ruleSets[ids[k]]))
    {
      providers := providers + [RuleProvider(RuleSetProviderName(ids[i]), NormalizedRuleSet(ruleSets[ids[i]]))];
    }
  }
}
