/** The entry points of the device policy compiler, with what they guarantee. */
module PolicyCompilation {
  import opened Text
  import opened PolicyModel
  import opened PolicyValidation
  import opened PolicyCompiler
  import opened PolicyMeaning
  import opened PolicyTheorems
  import opened PolicyStructure

  /** An IPv4 network: `size` is a power of two and `base` a multiple of it. */
  datatype LAN = LAN(base: nat, size: nat)

  predicate InLAN(device: ManagedDevice, network: LAN) {
    device.ipv4.IPv4? && network.base <= device.ipv4.address < network.base + network.size
  }

  function OnLAN(devices: seq<ManagedDevice>, network: LAN): seq<ManagedDevice> {
    if devices == [] then []
    else
      var n := |devices| - 1;
      OnLAN(devices[..n], network) + if InLAN(devices[n], network) then [devices[n]] else []
  }

  /** The subset of a document that the current gateway LAN serves. */
  method ActivePolicySetForLAN(policy: PolicySet, network: LAN) returns (active: PolicySet)
    ensures active == policy.(devices := OnLAN(policy.devices, network))
  {
    var devices := [];
    for i := 0 to |policy.devices|
      invariant devices == OnLAN(policy.devices[..i], network)
    {
      assert policy.devices[..i + 1][..i] == policy.devices[..i];
      if InLAN(policy.devices[i], network) {
        devices := devices + [policy.devices[i]];
      }
    }
    assert policy.devices[..|policy.devices|] == policy.devices;
    active := policy.(devices := devices);
  }

  lemma {:induction false} OnLANMembers(devices: seq<ManagedDevice>, network: LAN, device: ManagedDevice)
    ensures device in OnLAN(devices, network) <==> device in devices && InLAN(device, network)
  {
    if devices != [] {
      var n := |devices| - 1;
      OnLANMembers(devices[..n], network, device);
      assert devices == devices[..n] + [devices[n]];
    }
  }

  lemma {:induction false} OnLANDistinct(devices: seq<ManagedDevice>, network: LAN)
    requires DistinctDevices(devices)
    ensures DistinctDevices(OnLAN(devices, network))
  {
    hide Clash, InLAN;
    if devices != [] {
      var n := |devices| - 1;
      OnLANDistinct(devices[..n], network);
      var before := OnLAN(devices[..n], network);
      forall i | 0 <= i < |before| ensures !Clash(before[i], devices[n]) {
        OnLANMembers(devices[..n], network, before[i]);
        var k :| 0 <= k < n && devices[..n][k] == before[i];
        assert devices[k] == before[i];
      }
    }
  }

  /** Restricting a valid document to a LAN leaves it valid. */
  lemma LANSubsetIsValid(policy: PolicySet, parsers: Parsers, network: LAN)
    requires ValidPolicySet(policy, parsers)
    ensures ValidPolicySet(policy.(devices := OnLAN(policy.devices, network)), parsers)
  {
    hide ValidProfile, ValidTemplateBody, ValidRuleSets, ValidTemplateHeads, ValidProfileIDs, ValidDevice, Table,
      Clash, InLAN;
    OnLANDistinct(policy.devices, network);
    var active := OnLAN(policy.devices, network);
    forall i | 0 <= i < |active| ensures ValidDevice(active[i], ProfileTable(policy.profiles).Keys) {
      OnLANMembers(policy.devices, network, active[i]);
    }
  }

  /** Every valid document compiles, and every rule set its rules use is declared. */
  lemma ValidDocumentCompiles(policy: PolicySet, parsers: Parsers, ipOnlyDevicesActive: bool, inventory: Inventory)
    requires ValidPolicySet(policy, parsers)
    ensures AllProfilesValid(policy.devices, policy, parsers) && DistinctDevices(policy.devices)
            && AddressesParsed(policy.devices)
    ensures var compiled := CompiledSections(policy.devices, ProfileTable(policy.profiles),
                TemplateTable(policy.templates),
                              ipOnlyDevicesActive, inventory);
            compiled.Success? && compiled.value.usedRuleSets <= RuleSetTable(policy.ruleSets).Keys
  {
    hide DeviceProfileValid, ValidProfile, ValidTemplateBody, Table, CompiledDeviceSections;
    forall i | 0 <= i < |policy.devices| ensures DeviceProfileValid(policy.devices[i], policy, parsers) {
      ValidDeviceHasProfile(policy, parsers, i);
    }
    DevicesCompile(policy.devices, policy, parsers, ipOnlyDevicesActive, inventory);
    TemplatesDeclareRuleSets(policy, parsers);
    UsedAreDeclared(policy.devices, policy, parsers, ipOnlyDevicesActive, inventory);
  }

  ghost predicate TemplatesDeclared(policy: PolicySet) {
    var templates := TemplateTable(policy.templates);
    forall id :: id in templates ==> Elements(templates[id].ruleSets) <= RuleSetTable(policy.ruleSets).Keys
  }

  lemma TemplatesDeclareRuleSets(policy: PolicySet, parsers: Parsers)
    requires ValidPolicySet(policy, parsers)
    ensures TemplatesDeclared(policy)
  {
    hide ValidProfile, ValidRules, ValidRuleSets, ValidTemplateHeads, ValidProfileIDs, ValidDevices, Table;
    var templates := TemplateTable(policy.templates);
    forall id | id in templates ensures Elements(templates[id].ruleSets) <= RuleSetTable(policy.ruleSets).Keys {
      TableEntry(policy.templates, TemplateID, id);
      var i :| 0 <= i < |policy.templates| && templates[id] == policy.templates[i];
      assert ValidTemplateBody(policy.templates[i], RuleSetTable(policy.ruleSets).Keys, templates, parsers);
    }
  }

  /** A valid rule refers to declared rule sets only. */
  lemma RuleUsesDeclared(device: string, address: nat, rule: Rule, profileUnsupported: string, policy: PolicySet,
                         parsers: Parsers, inventory: Inventory)
    requires ValidRule(rule, RuleSetTable(policy.ruleSets).Keys, TemplateTable(policy.templates), parsers)
    requires TemplatesDeclared(policy)
    requires CompiledRule(device, address, rule, profileUnsupported, TemplateTable(policy.templates),
                          inventory).Success?
    ensures CompiledRule(device, address, rule, profileUnsupported, TemplateTable(policy.templates),
                         inventory).value.usedRuleSets
         <= RuleSetTable(policy.ruleSets).Keys
  {
    hide ExpandedVariants, ResolvedSelector, TargetAvailable, AllVariantRules, Table, ValidID, ValidPolicyList,
      ValidPolicy, CombinationCount, ValidDomain, ValidPortRange;
  }

  lemma {:induction false} RulesUseDeclared(device: string, address: nat, rules: seq<Rule>, profileUnsupported: string,
                                            policy: PolicySet, parsers: Parsers, inventory: Inventory)
    requires ValidRules(rules, RuleSetTable(policy.ruleSets).Keys, TemplateTable(policy.templates), parsers)
             && TemplatesDeclared(policy)
    requires CompiledRules(device, address, rules, profileUnsupported, TemplateTable(policy.templates),
                           inventory).Success?
    ensures CompiledRules(device, address, rules, profileUnsupported, TemplateTable(policy.templates),
                          inventory).value.usedRuleSets
         <= RuleSetTable(policy.ruleSets).Keys
  {
    hide CompiledRule, Table, ValidRule, TemplatesDeclared;
    if rules != [] {
      var n := |rules| - 1;
      RulesUseDeclared(device, address, rules[..n], profileUnsupported, policy, parsers, inventory);
      RuleUsesDeclared(device, address, rules[n], profileUnsupported, policy, parsers, inventory);
    }
  }

  lemma {:induction false} UsedAreDeclared(devices: seq<ManagedDevice>, policy: PolicySet, parsers: Parsers,
                                           ipOnlyDevicesActive: bool, inventory: Inventory)
    requires AllProfilesValid(devices, policy, parsers) && TemplatesDeclared(policy)
    ensures AddressesParsed(devices)
    ensures var compiled := CompiledSections(devices, ProfileTable(policy.profiles), TemplateTable(policy.templates),
                              ipOnlyDevicesActive, inventory);
            compiled.Success? && compiled.value.usedRuleSets <= RuleSetTable(policy.ruleSets).Keys
  {
    hide DeviceProfileValid, Table, ResolveProfile, CompiledRules, ValidRules, DefaultSelector, CatchAll,
      TemplatesDeclared;
    DevicesCompile(devices, policy, parsers, ipOnlyDevicesActive, inventory);
    if devices != [] {
      var n := |devices| - 1;
      UsedAreDeclared(devices[..n], policy, parsers, ipOnlyDevicesActive, inventory);
      DeviceCompiles(devices[n], policy, parsers, ipOnlyDevicesActive, inventory);
      if Routed(devices[n], ipOnlyDevicesActive) {
        var profile := ResolveProfile(ProfileOf(devices[n], ProfileTable(policy.profiles)),
                                      TemplateTable(policy.templates)).value;
        RulesUseDeclared(devices[n].id, devices[n].ipv4.address, profile.rules, profile.onUnsupported, policy, parsers,
          inventory);
      }
    }
  }

  /** Compilation succeeds exactly on valid documents. The providers listed are exactly
      those the override rules refer to, in order of rule-set id. */
  method CompilePolicySet(policy: PolicySet, parsers: Parsers, ipOnlyDevicesActive: bool, inventory: Inventory)
    returns (compiled: Result<CompiledPolicy, PolicyError>)
    ensures compiled.Success? <==> ValidPolicySet(policy, parsers)
    ensures compiled.Success? ==>
      && AddressesParsed(policy.devices)
      && CompiledSections(policy.devices, ProfileTable(policy.profiles), TemplateTable(policy.templates),
                          ipOnlyDevicesActive, inventory)
         == Success(compiled.value.sections)
      && ProvidersExact(compiled.value)
  {
    hide ValidPolicySet, CompiledSections, Table, UsedMeansMentioned;
    var fault := ValidatePolicySet(policy, parsers);
    if fault.Some? {
      return Failure(fault.value);
    }
    ValidDocumentCompiles(policy, parsers, ipOnlyDevicesActive, inventory);
    var profiles, templates, ruleSets := ProfileTable(policy.profiles), TemplateTable(policy.templates),
      RuleSetTable(policy.ruleSets);
    // After validation the error results of `CompileDevices` cannot occur.
    var sections := CompileDevices(policy.devices, profiles, templates, ipOnlyDevicesActive, inventory);
    var ids, providers := CompileProviders(sections.value.usedRuleSets, ruleSets);
    DocumentUses(policy.devices, profiles, templates, ipOnlyDevicesActive, inventory);
    compiled := Success(CompiledPolicy(sections.value, providers));
    assert ProvidersFor(ids, compiled.value);
  }

  /** `ids` lists the rule sets in use, ascending, one provider each. */
  ghost predicate ProvidersFor(ids: seq<string>, policy: CompiledPolicy) {
    && StrictlySorted(ids)
    && UsedMeansMentioned(Elements(ids), policy.sections.overrideRules)
    && |policy.ruleProviders| == |ids|
    && forall i :: 0 <= i < |ids| ==> policy.ruleProviders[i].name == RuleSetProviderName(ids[i])
  }

  ghost predicate ProvidersExact(policy: CompiledPolicy) {
    exists ids :: ProvidersFor(ids, policy)
  }

  // ---- The main theorem ----

  /** For every valid document and packet: when the packet's source is a device, each
      rule list decides as the device's resolved profile says; otherwise, and for devices
      kept off the data path, no compiled rule fires. */
  lemma CompiledPolicyMeaning(policy: PolicySet, parsers: Parsers, ipOnlyDevicesActive: bool, inventory: Inventory,
      packet: Packet)
    requires ValidPolicySet(policy, parsers)
    ensures AddressesParsed(policy.devices)
    ensures var compiled := CompiledSections(policy.devices, ProfileTable(policy.profiles),
                TemplateTable(policy.templates),
                              ipOnlyDevicesActive, inventory);
            && compiled.Success?
            && (forall i :: 0 <= i < |policy.devices| && policy.devices[i].ipv4.address == packet.source ==>
                  && ProfileResolved(policy.devices[i], policy)
                  && SectionDecisions(compiled.value, packet)
                     == DeviceVerdicts(policy.devices[i], policy, ipOnlyDevicesActive, inventory, packet))
            && ((forall i :: 0 <= i < |policy.devices| ==>
                  policy.devices[i].ipv4.address != packet.source
                  || !Routed(policy.devices[i], ipOnlyDevicesActive)) ==>
                  SectionDecisions(compiled.value, packet) == UNDECIDED)
  {
    hide ValidPolicySet, DeviceProfileValid, CompiledSections, Table, SectionDecisions, RulesDecision,
      CatchAllDecision, ProfileResolved;
    ValidDocumentCompiles(policy, parsers, ipOnlyDevicesActive, inventory);
    SectionsMeaning(policy.devices, policy, parsers, ipOnlyDevicesActive, inventory, packet);
  }

  /** Group names are distinct and every rule target is emitted, on any LAN and inventory. */
  lemma CompiledPolicyShape(policy: PolicySet, parsers: Parsers, network: LAN, ipOnlyDevicesActive: bool,
      inventory: Inventory)
    requires ValidPolicySet(policy, parsers)
    ensures var active := OnLAN(policy.devices, network);
            && AddressesParsed(active)
            && var compiled := CompiledSections(active, ProfileTable(policy.profiles), TemplateTable(policy.templates),
                                 ipOnlyDevicesActive, inventory);
               && compiled.Success?
               && DistinctNames(compiled.value.selectorGroups)
               && AllTargetsEmitted(compiled.value)
  {
    LANSubsetIsValid(policy, parsers, network);
    var active := policy.(devices := OnLAN(policy.devices, network));
    hide DeviceProfileValid, CompiledSections, Table, AllTargetsEmitted, DistinctNames, ValidProfile,
      ValidTemplateBody, OnLAN;
    ValidDocumentCompiles(active, parsers, ipOnlyDevicesActive, inventory);
    forall i | 0 <= i < |active.devices| ensures ValidID(active.devices[i].id) {
      assert ValidDevice(active.devices[i], ProfileTable(policy.profiles).Keys);
    }
    GroupNamesDistinct(active.devices, active, parsers, ipOnlyDevicesActive, inventory);
    DocumentTargetsEmitted(active.devices, ProfileTable(policy.profiles), TemplateTable(policy.templates),
      ipOnlyDevicesActive, inventory);
  }
}
