/** Theorems about whole policy documents: validation suffices for compilation, and
    compilation preserves the meaning of every profile for every packet. */
module PolicyTheorems {
  import opened Text
  import opened Int64
  import opened PolicyModel
  import opened PolicyCompiler
  import opened PolicyMeaning

  // ---- Sizes of expansions ----

  lemma {:induction false} CrossShape(existing: Variants, conditions: seq<Condition>)
    requires conditions != []
    ensures |Cross(existing, conditions)| == |existing| * |conditions|
    ensures existing != [] ==>
              Cross(existing, conditions) != [] && Cross(existing, conditions)[0] == existing[0] + [conditions[0]]
  {
    if existing != [] {
      var n := |existing| - 1;
      CrossShape(existing[..n], conditions);
      assert |existing| * |conditions| == n * |conditions| + |conditions|;
      assert Cross(existing, conditions)
             == Cross(existing[..n], conditions) + Extensions(existing[n], conditions, |conditions|);
    }
  }

  lemma DimensionShape(existing: Variants, conditions: seq<Condition>)
    requires existing != []
    ensures var next := WithDimension(existing, conditions);
            && next != []
            && |next| == |existing| * (if conditions == [] then 1 else |conditions|)
            && next[0] == existing[0] + (if conditions == [] then [] else [conditions[0]])
  {
    if conditions != [] {
      CrossShape(existing, conditions);
    }
  }

  /** The variants of a match are one per combination of its field values. */
  lemma VariantCount(when: RuleMatch)
    ensures var variants := ExpandedVariants(when);
            && |variants| == Factor(when.domains) * Factor(when.ipCidrs) * Factor(when.protocols) * Factor(when.ports)
                             * Factor(when.ruleSets)
            && variants != []
            && (variants[0] == [] <==> NoDirectConditions(when))
  {
    var d, c, n, p, r := DomainConditions(when.domains), CidrConditions(when.ipCidrs),
        ProtocolConditions(when.protocols),
      PortConditions(when.ports), RuleSetConditions(when.ruleSets);
    var v0: Variants := [[]];
    var v1 := WithDimension(v0, d);
    DimensionShape(v0, d);
    var v2 := WithDimension(v1, c);
    DimensionShape(v1, c);
    var v3 := WithDimension(v2, n);
    DimensionShape(v2, n);
    var v4 := WithDimension(v3, p);
    DimensionShape(v3, p);
    DimensionShape(v4, r);
  }

  /** A valid match expands; a template match stands for the template's rule sets alone. */
  lemma ValidMatchExpands(when: RuleMatch, ruleSets: set<string>, templates: map<string, Template>, parsers: Parsers)
    requires ValidMatch(when, ruleSets, templates, parsers)
    ensures ExpandedMatch(when, templates).Success?
    ensures |ExpandedMatch(when, templates).value.variants| == ExactCombinations(when, templates)
  {
    hide ExpandedVariants, ValidDomain, ValidPortRange, CombinationCount;
    VariantCount(Expanded(when, templates));
  }

  lemma WrapIsExactBelowLimit(n: nat)
    ensures WrapInt64(n) == n <==> n < INT64_LIMIT
  {
  }

  /** Multiplying positive numbers never gets smaller, so a product below the limit was never wrapped. */
  lemma ProductSteps(a: nat, b: nat)
    requires b >= 1
    ensures a * b >= a
  {
  }

  /** The machine product of a match's field sizes equals the number of variants exactly
      when that number fits a 64-bit integer. */
  lemma CombinationCountExact(when: RuleMatch, templates: map<string, Template>)
    requires when.template == ""
    ensures CombinationCount(when, templates) == |ExpandedVariants(when)| <==> |ExpandedVariants(when)| < INT64_LIMIT
  {
    hide ExpandedVariants;
    VariantCount(when);
    var a := Factor(when.domains) * Factor(when.ipCidrs);
    var b := a * Factor(when.protocols);
    var c := b * Factor(when.ports);
    var d := c * Factor(when.ruleSets);
    ProductSteps(a, Factor(when.protocols));
    ProductSteps(b, Factor(when.ports));
    ProductSteps(c, Factor(when.ruleSets));
    WrapIsExactBelowLimit(a);
    WrapIsExactBelowLimit(b);
    WrapIsExactBelowLimit(c);
    WrapIsExactBelowLimit(d);
    if d < INT64_LIMIT {
      assert WrapInt64(a) == a && WrapInt64(b) == b && WrapInt64(c) == c && WrapInt64(d) == d;
    } else {
      assert CombinationCount(when, templates) < INT64_LIMIT;
    }
  }

  /** A match of five lists of 8192 values each has 2^65 combinations, which the machine product counts as none. */
  lemma CombinationCountWraps(when: RuleMatch, templates: map<string, Template>)
    requires when.template == ""
    requires |when.domains| == |when.ipCidrs| == |when.protocols| == |when.ports| == |when.ruleSets| == 8192
    ensures CombinationCount(when, templates) == 0 && CombinationCount(when, templates) <= MAX_VARIANTS
    ensures |ExpandedVariants(when)| == 0x2_0000_0000_0000_0000
  {
    hide ExpandedVariants;
    VariantCount(when);
    var a := Factor(when.domains) * Factor(when.ipCidrs);
    assert a == 0x400_0000;
    assert a * Factor(when.protocols) == 0x80_0000_0000;
    assert 0x80_0000_0000 * Factor(when.ports) == 0x10_0000_0000_0000;
    assert 0x10_0000_0000_0000 * Factor(when.ruleSets) == 0x2_0000_0000_0000_0000;
  }

  /** A valid match has at most 256 variants, exactly when its size was counted without wrapping. */
  lemma ValidMatchBounded(when: RuleMatch, ruleSets: set<string>, templates: map<string, Template>, parsers: Parsers)
    requires ValidMatch(when, ruleSets, templates, parsers)
    ensures ExactCombinations(when, templates) <= MAX_VARIANTS <==> ExactCombinations(when, templates) < INT64_LIMIT
  {
    hide ValidDomain, ValidPortRange, ExpandedVariants, WrapInt64;
    if when.template == "" {
      VariantCount(when);
      CombinationCountExact(when, templates);
    }
  }

  // ---- Every valid document compiles ----

  lemma {:induction false} ValidRulesCompile(device: string, address: nat, rules: seq<Rule>,
      profileUnsupported: string, ruleSets: set<string>,
                                             templates: map<string, Template>, parsers: Parsers, inventory: Inventory)
    requires ValidRules(rules, ruleSets, templates, parsers)
    ensures TemplatesKnown(rules, templates)
    ensures CompiledRules(device, address, rules, profileUnsupported, templates, inventory).Success?
  {
    hide ValidMatch, ExpandedMatch, RuleTarget, ValidPolicyList, ValidPolicy, ValidUnsupported, ValidID;
    forall i | 0 <= i < |rules| ensures rules[i].when.template != "" ==> rules[i].when.template in templates {
      assert ValidRule(rules[i], ruleSets, templates, parsers);
      ValidMatchTemplate(rules[i].when, ruleSets, templates, parsers);
    }
    if rules != [] {
      var n := |rules| - 1;
      ValidRulesCompile(device, address, rules[..n], profileUnsupported, ruleSets, templates, parsers, inventory);
      assert ValidRule(rules[n], ruleSets, templates, parsers);
      ValidMatchExpands(rules[n].when, ruleSets, templates, parsers);
    }
  }

  lemma ValidMatchTemplate(when: RuleMatch, ruleSets: set<string>, templates: map<string, Template>, parsers: Parsers)
    requires ValidMatch(when, ruleSets, templates, parsers)
    ensures when.template != "" ==> when.template in templates
  {
  }

  /** The resolved profile of a device of a valid document. */
  ghost predicate DeviceProfileValid(managed: ManagedDevice, policy: PolicySet, parsers: Parsers) {
    var templates := TemplateTable(policy.templates);
    && managed.ipv4.IPv4?
    && managed.profile in ProfileTable(policy.profiles)
    && ValidProfile(ProfileTable(policy.profiles)[managed.profile], RuleSetTable(policy.ruleSets).Keys, templates,
                    parsers)
  }

  lemma ValidDeviceHasProfile(policy: PolicySet, parsers: Parsers, i: nat)
    requires ValidPolicySet(policy, parsers) && i < |policy.devices|
    ensures DeviceProfileValid(policy.devices[i], policy, parsers)
  {
    hide ValidProfile, ValidTemplateBody, ValidRuleSets, ValidTemplateHeads, ValidProfileIDs, Table;
    assert ValidDevice(policy.devices[i], ProfileTable(policy.profiles).Keys);
    TableEntry(policy.profiles, ProfileID, policy.devices[i].profile);
  }

  ghost predicate AllProfilesValid(devices: seq<ManagedDevice>, policy: PolicySet, parsers: Parsers) {
    forall i :: 0 <= i < |devices| ==> DeviceProfileValid(devices[i], policy, parsers)
  }

  lemma {:induction false} DevicesCompile(devices: seq<ManagedDevice>, policy: PolicySet, parsers: Parsers,
                                          ipOnlyDevicesActive: bool, inventory: Inventory)
    requires AllProfilesValid(devices, policy, parsers)
    ensures AddressesParsed(devices)
    ensures CompiledSections(devices, ProfileTable(policy.profiles), TemplateTable(policy.templates),
                             ipOnlyDevicesActive, inventory).Success?
  {
    hide DeviceProfileValid, CompiledDeviceSections;
    forall i | 0 <= i < |devices| ensures devices[i].ipv4.IPv4? {
      assert DeviceProfileValid(devices[i], policy, parsers);
      DeviceCompiles(devices[i], policy, parsers, ipOnlyDevicesActive, inventory);
    }
    if devices != [] {
      var n := |devices| - 1;
      DevicesCompile(devices[..n], policy, parsers, ipOnlyDevicesActive, inventory);
      DeviceCompiles(devices[n], policy, parsers, ipOnlyDevicesActive, inventory);
    }
  }

  lemma DeviceCompiles(managed: ManagedDevice, policy: PolicySet, parsers: Parsers, ipOnlyDevicesActive: bool,
      inventory: Inventory)
    requires DeviceProfileValid(managed, policy, parsers)
    ensures managed.ipv4.IPv4?
    ensures CompiledDeviceSections(managed, ProfileTable(policy.profiles), TemplateTable(policy.templates),
                                   ipOnlyDevicesActive, inventory).Success?
    ensures var resolved := ResolveProfile(ProfileOf(managed, ProfileTable(policy.profiles)),
                TemplateTable(policy.templates));
            resolved.Success? && TemplatesKnown(resolved.value.rules, TemplateTable(policy.templates))
            && ValidRules(resolved.value.rules, RuleSetTable(policy.ruleSets).Keys, TemplateTable(policy.templates),
                          parsers)
  {
    hide ValidRules, CompiledRules, DeviceSections, Table;
    var templates := TemplateTable(policy.templates);
    var profile := ResolveProfile(ProfileOf(managed, ProfileTable(policy.profiles)), templates).value;
    ValidRulesCompile(managed.id, managed.ipv4.address, profile.rules, profile.onUnsupported,
      RuleSetTable(policy.ruleSets).Keys, templates, parsers, inventory);
  }

  // ---- What one device's sections do ----

  /** What the document says of a device's packets: its rules in order, if it is on the data path. */
  ghost function OverrideVerdict(managed: ManagedDevice, policy: PolicySet, ipOnlyDevicesActive: bool,
      inventory: Inventory, packet: Packet)
    : Option<string>
    requires ProfileResolved(managed, policy)
  {
    var profile := ResolvedProfile(managed, policy);
    if !Routed(managed, ipOnlyDevicesActive) then None
    else RulesDecision(managed.id, profile.rules, profile.onUnsupported, TemplateTable(policy.templates), inventory,
                       packet)
  }

  /** What the document says of a device's packets that reach its own selector in the given mode. */
  ghost function SelectorVerdict(managed: ManagedDevice, policy: PolicySet, mode: string, ipOnlyDevicesActive: bool,
      inventory: Inventory,
                                 packet: Packet): Option<string>
    requires ProfileResolved(managed, policy)
  {
    if !Routed(managed, ipOnlyDevicesActive) then None
    else CatchAllDecision(managed, ResolvedProfile(managed, policy), mode, inventory, packet)
  }

  predicate Routed(managed: ManagedDevice, ipOnlyDevicesActive: bool) {
    Active(managed, ipOnlyDevicesActive) && !UsesUpstreamRouter(managed)
  }

  ghost predicate ProfileResolved(managed: ManagedDevice, policy: PolicySet) {
    var resolved := ResolveProfile(ProfileOf(managed, ProfileTable(policy.profiles)), TemplateTable(policy.templates));
    resolved.Success? && TemplatesKnown(resolved.value.rules, TemplateTable(policy.templates))
  }

  ghost function ResolvedProfile(managed: ManagedDevice, policy: PolicySet): Profile
    requires ProfileResolved(managed, policy)
  {
    ResolveProfile(ProfileOf(managed, ProfileTable(policy.profiles)), TemplateTable(policy.templates)).value
  }

  /** How the three rule lists of some compiled sections decide a packet. */
  datatype Decisions = Decisions(overrides: Option<string>, dedicated: Option<string>, defaults: Option<string>)

  const UNDECIDED := Decisions(None, None, None)

  ghost function SectionDecisions(sections: Sections, packet: Packet): Decisions {
    Decisions(FirstMatch(sections.overrideRules, packet), FirstMatch(sections.dedicatedRules, packet),
              FirstMatch(sections.defaultRules, packet))
  }

  ghost function DeviceVerdicts(managed: ManagedDevice, policy: PolicySet, ipOnlyDevicesActive: bool,
      inventory: Inventory, packet: Packet): Decisions
    requires ProfileResolved(managed, policy)
  {
    Decisions(
      OverrideVerdict(managed, policy, ipOnlyDevicesActive, inventory, packet),
      SelectorVerdict(managed, policy, DEDICATED, ipOnlyDevicesActive, inventory, packet),
      SelectorVerdict(managed, policy, LEGACY_FALLBACK, ipOnlyDevicesActive, inventory, packet))
  }

  lemma DeviceMeaning(managed: ManagedDevice, policy: PolicySet, ipOnlyDevicesActive: bool, inventory: Inventory,
      packet: Packet)
    requires managed.ipv4.IPv4? && ProfileResolved(managed, policy)
    requires CompiledDeviceSections(managed, ProfileTable(policy.profiles), TemplateTable(policy.templates),
                                    ipOnlyDevicesActive, inventory).Success?
    ensures SectionDecisions(
              CompiledDeviceSections(managed, ProfileTable(policy.profiles), TemplateTable(policy.templates),
                                     ipOnlyDevicesActive, inventory).value, packet)
         == if packet.source != managed.ipv4.address then UNDECIDED
            else DeviceVerdicts(managed, policy, ipOnlyDevicesActive, inventory, packet)
  {
    hide Table, ResolveProfile, TemplatesKnown, CompiledRules, RulesDecision, CatchAll, SelectorKept, ResolvedSelector,
      DeviceGroupName;
    if Routed(managed, ipOnlyDevicesActive) {
      var profile, templates := ResolvedProfile(managed, policy), TemplateTable(policy.templates);
      assert TemplatesKnown(profile.rules, templates);
      RulesMeaning(managed.id, managed.ipv4.address, profile.rules, profile.onUnsupported, templates, inventory,
        packet);
      CatchAllMeaning(managed.ipv4.address, managed.id, profile.onUnsupported, packet);
      SelectorMeaning(inventory, managed.id, "default", profile.defaultPolicies);
    }
  }

  ghost function FirstOf(a: Option<string>, b: Option<string>): Option<string> {
    if a.Some? then a else b
  }

  lemma AppendMeaning(a: Sections, b: Sections, packet: Packet)
    ensures var x, y := SectionDecisions(a, packet), SectionDecisions(b, packet);
            SectionDecisions(Append(a, b), packet)
              == Decisions(FirstOf(x.overrides, y.overrides), FirstOf(x.dedicated, y.dedicated),
                           FirstOf(x.defaults, y.defaults))
  {
    hide FirstMatch;
    FirstMatchConcat(a.overrideRules, b.overrideRules, packet);
    FirstMatchConcat(a.dedicatedRules, b.dedicatedRules, packet);
    FirstMatchConcat(a.defaultRules, b.defaultRules, packet);
  }

  // ---- What the whole document does ----

  /** Sections compiled from some devices say of a packet what its source device says, and nothing without one. */
  lemma {:induction false} SectionsMeaning(devices: seq<ManagedDevice>, policy: PolicySet, parsers: Parsers,
      ipOnlyDevicesActive: bool,
                                           inventory: Inventory, packet: Packet)
    requires AllProfilesValid(devices, policy, parsers) && DistinctDevices(devices)
    ensures AddressesParsed(devices)
    ensures var compiled := CompiledSections(devices, ProfileTable(policy.profiles), TemplateTable(policy.templates),
                ipOnlyDevicesActive, inventory);
            && compiled.Success?
            && (forall i :: 0 <= i < |devices| && devices[i].ipv4.address == packet.source ==>
                  && ProfileResolved(devices[i], policy)
                  && SectionDecisions(compiled.value, packet)
                     == DeviceVerdicts(devices[i], policy, ipOnlyDevicesActive, inventory, packet))
            && ((forall i :: 0 <= i < |devices| ==> devices[i].ipv4.address != packet.source) ==>
                  SectionDecisions(compiled.value, packet) == UNDECIDED)
  {
    hide DeviceProfileValid, CompiledDeviceSections, DeviceVerdicts, FirstMatch, ProfileResolved, Append,
      SectionDecisions, Table;
    DevicesCompile(devices, policy, parsers, ipOnlyDevicesActive, inventory);
    if devices == [] {
      EmptyDecisions(packet);
    } else {
      var n := |devices| - 1;
      var last := devices[n];
      SectionsMeaning(devices[..n], policy, parsers, ipOnlyDevicesActive, inventory, packet);
      DeviceCompiles(last, policy, parsers, ipOnlyDevicesActive, inventory);
      ResolvedIsResolved(last, policy, parsers, ipOnlyDevicesActive, inventory);
      DeviceMeaning(last, policy, ipOnlyDevicesActive, inventory, packet);
      var before := CompiledSections(devices[..n], ProfileTable(policy.profiles), TemplateTable(policy.templates),
                                     ipOnlyDevicesActive, inventory).value;
      var own := CompiledDeviceSections(last, ProfileTable(policy.profiles), TemplateTable(policy.templates),
                                        ipOnlyDevicesActive, inventory).value;
      AppendMeaning(before, own, packet);
      forall i | 0 <= i < n && devices[i].ipv4.address == packet.source
        ensures ProfileResolved(devices[i], policy)
        ensures SectionDecisions(before, packet)
                == DeviceVerdicts(devices[i], policy, ipOnlyDevicesActive, inventory, packet)
      {
        assert devices[..n][i] == devices[i];
      }
      assert forall i :: 0 <= i < n ==> !Clash(devices[i], last);
      if last.ipv4.address == packet.source {
        forall i | 0 <= i < n ensures devices[..n][i].ipv4.address != packet.source {
          assert !Clash(devices[i], last);
        }
      }
    }
  }

  lemma EmptyDecisions(packet: Packet)
    ensures SectionDecisions(EMPTY, packet) == UNDECIDED
  {
  }

  lemma ResolvedIsResolved(managed: ManagedDevice, policy: PolicySet, parsers: Parsers, ipOnlyDevicesActive: bool,
      inventory: Inventory)
    requires DeviceProfileValid(managed, policy, parsers)
    ensures ProfileResolved(managed, policy)
  {
    DeviceCompiles(managed, policy, parsers, ipOnlyDevicesActive, inventory);
  }
}
