/** The shape of compiled policies: group names, rule targets and rule providers fit
    together, and an inventory that lacks nothing changes nothing. */
module PolicyStructure {
  import opened Text
  import opened PolicyModel
  import opened PolicyCompiler
  import opened PolicyMeaning
  import opened PolicyTheorems

  // ---- Group names ----

  lemma IDHasNoSlash(id: string)
    requires ValidID(id)
    ensures '/' !in id
  {
  }

  /** Group names determine their device and slot. */
  lemma GroupNameInjective(d1: string, s1: string, d2: string, s2: string)
    requires '/' !in d1 && '/' !in d2
    requires DeviceGroupName(d1, s1) == DeviceGroupName(d2, s2)
    ensures d1 == d2 && s1 == s2
  {
    var a, b := DeviceGroupName(d1, s1), DeviceGroupName(d2, s2);
    var t1, t2 := d1 + "/" + s1, d2 + "/" + s2;
    assert a == "device/" + t1 && b == "device/" + t2;
    assert a[7..] == t1 && b[7..] == t2;
    assert t1[|d1|] == '/' && t2[|d2|] == '/';
    assert forall i :: 0 <= i < |d1| ==> t1[i] == d1[i];
    assert forall i :: 0 <= i < |d2| ==> t2[i] == d2[i];
    assert |d1| == |d2|;
    assert t1[..|d1|] == d1 && t2[..|d1|] == d2;
    assert t1[|d1| + 1..] == s1 && t2[|d1| + 1..] == s2;
  }

  predicate DistinctNames(groups: seq<SelectorGroup>) {
    forall i, j :: 0 <= i < j < |groups| ==> groups[i].name != groups[j].name
  }

  predicate HasName(groups: seq<SelectorGroup>, name: string) {
    exists i :: 0 <= i < |groups| && groups[i].name == name
  }

  /** Every group belongs to a rule of the list, in list order without repetition. */
  lemma {:induction false} RuleGroupNames(device: string, address: nat, rules: seq<Rule>, profileUnsupported: string,
                                          templates: map<string, Template>, inventory: Inventory)
    requires '/' !in device && DistinctRuleIDs(rules)
    requires CompiledRules(device, address, rules, profileUnsupported, templates, inventory).Success?
    ensures var output := CompiledRules(device, address, rules, profileUnsupported, templates, inventory).value;
            && DistinctNames(output.selectorGroups)
            && forall k :: 0 <= k < |output.selectorGroups| ==> SlotNamed(device, rules, output.selectorGroups[k].name)
  {
    hide ResolvedSelector, ExpandedMatch, DeviceGroupName, AllVariantRules, TargetAvailable;
    if rules != [] {
      var n := |rules| - 1;
      RuleGroupNames(device, address, rules[..n], profileUnsupported, templates, inventory);
      var before := CompiledRules(device, address, rules[..n], profileUnsupported, templates,
                                  inventory).value.selectorGroups;
      forall k | 0 <= k < |before|
        ensures SlotNamed(device, rules, before[k].name) && before[k].name != DeviceGroupName(device, rules[n].id)
      {
        assert SlotNamed(device, rules[..n], before[k].name);
        var i :| 0 <= i < n && before[k].name == DeviceGroupName(device, rules[..n][i].id);
        assert rules[..n][i] == rules[i];
        if DeviceGroupName(device, rules[i].id) == DeviceGroupName(device, rules[n].id) {
          GroupNameInjective(device, rules[i].id, device, rules[n].id);
        }
      }
      assert SlotNamed(device, rules, DeviceGroupName(device, rules[n].id));
    }
  }

  predicate SlotNamed(device: string, rules: seq<Rule>, name: string) {
    exists i :: 0 <= i < |rules| && name == DeviceGroupName(device, rules[i].id)
  }

  /** A group name of this device. */
  ghost predicate NamedFor(device: string, name: string) {
    exists slot :: name == DeviceGroupName(device, slot)
  }

  lemma DeviceGroupNames(managed: ManagedDevice, policy: PolicySet, parsers: Parsers, ipOnlyDevicesActive: bool,
      inventory: Inventory)
    requires DeviceProfileValid(managed, policy, parsers) && ValidID(managed.id)
    ensures var compiled := CompiledDeviceSections(managed, ProfileTable(policy.profiles),
                TemplateTable(policy.templates), ipOnlyDevicesActive, inventory);
            && compiled.Success?
            && DistinctNames(compiled.value.selectorGroups)
            && forall k :: 0 <= k < |compiled.value.selectorGroups| ==>
                 NamedFor(managed.id, compiled.value.selectorGroups[k].name)
  {
    hide Table, ResolveProfile, CompiledRules, CatchAll, ResolvedSelector, DeviceGroupName, ValidMatch, ValidID;
    DeviceCompiles(managed, policy, parsers, ipOnlyDevicesActive, inventory);
    if Routed(managed, ipOnlyDevicesActive) {
      var templates := TemplateTable(policy.templates);
      var profile := ResolveProfile(ProfileOf(managed, ProfileTable(policy.profiles)), templates).value;
      IDHasNoSlash(managed.id);
      RuleGroupNames(managed.id, managed.ipv4.address, profile.rules, profile.onUnsupported, templates, inventory);
      var output := CompiledRules(managed.id, managed.ipv4.address, profile.rules, profile.onUnsupported, templates,
                                  inventory).value;
      forall k | 0 <= k < |output.selectorGroups|
        ensures output.selectorGroups[k].name != DeviceGroupName(managed.id, "default")
        ensures NamedFor(managed.id, output.selectorGroups[k].name)
      {
        var name := output.selectorGroups[k].name;
        assert SlotNamed(managed.id, profile.rules, name);
        var i :| 0 <= i < |profile.rules| && name == DeviceGroupName(managed.id, profile.rules[i].id);
        assert ValidRule(profile.rules[i], RuleSetTable(policy.ruleSets).Keys, templates, parsers);
        if DeviceGroupName(managed.id, profile.rules[i].id) == DeviceGroupName(managed.id, "default") {
          GroupNameInjective(managed.id, profile.rules[i].id, managed.id, "default");
        }
      }
      assert NamedFor(managed.id, DeviceGroupName(managed.id, "default"));
    }
  }

  /** Selector group names of a compiled document are pairwise distinct. */
  lemma {:induction false} GroupNamesDistinct(devices: seq<ManagedDevice>, policy: PolicySet, parsers: Parsers,
                                              ipOnlyDevicesActive: bool, inventory: Inventory)
    requires AllProfilesValid(devices, policy, parsers) && DistinctDevices(devices)
    requires forall i :: 0 <= i < |devices| ==> ValidID(devices[i].id)
    ensures AddressesParsed(devices)
    ensures var compiled := CompiledSections(devices, ProfileTable(policy.profiles), TemplateTable(policy.templates),
                ipOnlyDevicesActive, inventory);
            && compiled.Success?
            && DistinctNames(compiled.value.selectorGroups)
            && forall k :: 0 <= k < |compiled.value.selectorGroups| ==>
                 NamedForSome(devices, compiled.value.selectorGroups[k].name)
  {
    hide DeviceProfileValid, CompiledDeviceSections, Table, DeviceGroupName, ValidID;
    DevicesCompile(devices, policy, parsers, ipOnlyDevicesActive, inventory);
    if devices != [] {
      var n := |devices| - 1;
      GroupNamesDistinct(devices[..n], policy, parsers, ipOnlyDevicesActive, inventory);
      DeviceGroupNames(devices[n], policy, parsers, ipOnlyDevicesActive, inventory);
      var before := CompiledSections(devices[..n], ProfileTable(policy.profiles), TemplateTable(policy.templates),
                                     ipOnlyDevicesActive, inventory).value.selectorGroups;
      var own := CompiledDeviceSections(devices[n], ProfileTable(policy.profiles), TemplateTable(policy.templates),
                                        ipOnlyDevicesActive, inventory).value.selectorGroups;
      forall k | 0 <= k < |before| ensures NamedForSome(devices, before[k].name)
      && !NamedFor(devices[n].id, before[k].name) {
        assert NamedForSome(devices[..n], before[k].name);
        var i :| 0 <= i < n && NamedFor(devices[..n][i].id, before[k].name);
        assert devices[..n][i] == devices[i] && !Clash(devices[i], devices[n]);
        OtherDeviceOtherName(devices[i].id, devices[n].id, before[k].name);
      }
      assert forall k :: 0 <= k < |own| ==> NamedFor(devices[n].id, own[k].name);
    }
  }

  ghost predicate NamedForSome(devices: seq<ManagedDevice>, name: string) {
    exists i :: 0 <= i < |devices| && NamedFor(devices[i].id, name)
  }

  lemma OtherDeviceOtherName(d1: string, d2: string, name: string)
    requires ValidID(d1) && ValidID(d2) && d1 != d2 && NamedFor(d1, name)
    ensures !NamedFor(d2, name)
  {
    hide ValidID;
    IDHasNoSlash(d1);
    IDHasNoSlash(d2);
    if NamedFor(d2, name) {
      var s1 :| name == DeviceGroupName(d1, s1);
      var s2 :| name == DeviceGroupName(d2, s2);
      GroupNameInjective(d1, s1, d2, s2);
    }
  }

  // ---- Targets of rules ----

  /** A target is a direct action of the document, REJECT, or an emitted group. */
  predicate Emitted(target: string, groups: seq<SelectorGroup>, actions: seq<string>) {
    target == "REJECT" || target in actions || HasName(groups, target)
  }

  predicate TargetsEmitted(rules: seq<FlatRule>, groups: seq<SelectorGroup>, actions: seq<string>) {
    forall i :: 0 <= i < |rules| ==> Emitted(rules[i].target, groups, actions)
  }

  lemma EmittedGrows(target: string, g1: seq<SelectorGroup>, a1: seq<string>, g2: seq<SelectorGroup>, a2: seq<string>)
    ensures Emitted(target, g1, a1) || Emitted(target, g2, a2) ==> Emitted(target, g1 + g2, a1 + a2)
  {
    if HasName(g1, target) {
      var i :| 0 <= i < |g1| && g1[i].name == target;
      assert (g1 + g2)[i].name == target;
    }
    if HasName(g2, target) {
      var i :| 0 <= i < |g2| && g2[i].name == target;
      assert (g1 + g2)[|g1| + i].name == target;
    }
  }

  lemma TargetsEmittedConcat(r1: seq<FlatRule>, g1: seq<SelectorGroup>, a1: seq<string>, r2: seq<FlatRule>,
      g2: seq<SelectorGroup>, a2: seq<string>)
    requires TargetsEmitted(r1, g1, a1) && TargetsEmitted(r2, g2, a2)
    ensures TargetsEmitted(r1 + r2, g1 + g2, a1 + a2)
  {
    forall i | 0 <= i < |r1 + r2| ensures Emitted((r1 + r2)[i].target, g1 + g2, a1 + a2) {
      EmittedGrows((r1 + r2)[i].target, g1, a1, g2, a2);
    }
  }

  lemma {:induction false} VariantTargets(address: nat, variants: Variants, target: string, reject: bool)
    ensures forall i :: 0 <= i < |AllVariantRules(address, variants, target, reject)| ==>
      AllVariantRules(address, variants, target, reject)[i].target in {target, "REJECT"}
  {
    if variants != [] {
      VariantTargets(address, variants[..|variants| - 1], target, reject);
    }
  }

  lemma {:induction false} RuleTargetsEmitted(device: string, address: nat, rules: seq<Rule>,
      profileUnsupported: string,
                                              templates: map<string, Template>, inventory: Inventory)
    requires CompiledRules(device, address, rules, profileUnsupported, templates, inventory).Success?
    ensures var output := CompiledRules(device, address, rules, profileUnsupported, templates, inventory).value;
            TargetsEmitted(output.overrideRules, output.selectorGroups, output.actionTargets)
  {
    hide ResolvedSelector, ExpandedMatch, DeviceGroupName, AllVariantRules, TargetAvailable, TargetsEmitted;
    if rules != [] {
      var n := |rules| - 1;
      RuleTargetsEmitted(device, address, rules[..n], profileUnsupported, templates, inventory);
      OneRuleTargetsEmitted(device, address, rules[n], profileUnsupported, templates, inventory);
      var a := CompiledRules(device, address, rules[..n], profileUnsupported, templates, inventory).value;
      var b := CompiledRule(device, address, rules[n], profileUnsupported, templates, inventory).value;
      TargetsEmittedConcat(a.overrideRules, a.selectorGroups, a.actionTargets, b.overrideRules, b.selectorGroups,
        b.actionTargets);
    } else {
      NothingEmitted();
    }
  }

  lemma NothingEmitted()
    ensures TargetsEmitted([], [], [])
  {
  }

  lemma OneRuleTargetsEmitted(device: string, address: nat, rule: Rule, profileUnsupported: string,
                              templates: map<string, Template>, inventory: Inventory)
    requires CompiledRule(device, address, rule, profileUnsupported, templates, inventory).Success?
    ensures var output := CompiledRule(device, address, rule, profileUnsupported, templates, inventory).value;
            TargetsEmitted(output.overrideRules, output.selectorGroups, output.actionTargets)
  {
    hide ResolvedSelector, ExpandedVariants, DeviceGroupName, AllVariantRules, TargetAvailable;
    var (output, target) := RuleTarget(device, rule, inventory);
    if target.Some? {
      var variants := ExpandedMatch(rule.when, templates).value.variants;
      VariantTargets(address, variants, target.value,
        ResolveUnsupported(rule.onUnsupported, profileUnsupported) == "reject");
      assert Emitted(target.value, output.selectorGroups, output.actionTargets) by {
        if rule.policies != [] {
          assert output.selectorGroups[0].name == target.value;
        } else {
          assert output.actionTargets[0] == target.value;
        }
      }
    }
  }

  /** Every target of every compiled rule is emitted. */
  ghost predicate AllTargetsEmitted(sections: Sections) {
    && TargetsEmitted(sections.overrideRules, sections.selectorGroups, sections.actionTargets)
    && TargetsEmitted(sections.dedicatedRules, sections.selectorGroups, sections.actionTargets)
    && TargetsEmitted(sections.defaultRules, sections.selectorGroups, sections.actionTargets)
  }

  lemma DeviceTargetsEmitted(managed: ManagedDevice, profiles: map<string, Profile>, templates: map<string, Template>,
                             ipOnlyDevicesActive: bool, inventory: Inventory)
    requires managed.ipv4.IPv4?
    requires CompiledDeviceSections(managed, profiles, templates, ipOnlyDevicesActive, inventory).Success?
    ensures AllTargetsEmitted(CompiledDeviceSections(managed, profiles, templates, ipOnlyDevicesActive,
                                                     inventory).value)
  {
    hide ResolveProfile, CompiledRules, ResolvedSelector, DeviceGroupName, TargetsEmitted;
    NothingEmitted();
    if Routed(managed, ipOnlyDevicesActive) {
      var profile := ResolveProfile(ProfileOf(managed, profiles), templates).value;
      RuleTargetsEmitted(managed.id, managed.ipv4.address, profile.rules, profile.onUnsupported, templates, inventory);
      var rules := CompiledRules(managed.id, managed.ipv4.address, profile.rules, profile.onUnsupported, templates,
                                 inventory).value;
      var (policies, _) := DefaultSelector(managed, profile, inventory);
      var group := DeviceGroupName(managed.id, "default");
      var own := if policies != [] then [SelectorGroup(group, policies)] else [];
      NothingHasTargets(own, []);
      NothingHasTargets(rules.selectorGroups, rules.actionTargets);
      NothingHasTargets(own + rules.selectorGroups, rules.actionTargets);
      TargetsEmittedConcat([], own, [], rules.overrideRules, rules.selectorGroups, rules.actionTargets);
      assert [] + rules.overrideRules == rules.overrideRules && [] + rules.actionTargets == rules.actionTargets;
      if policies != [] {
        CatchAllEmitted(managed.ipv4.address, managed.id, profile.onUnsupported, own);
        var catchAll := CatchAll(managed.ipv4.address, managed.id, profile.onUnsupported);
        TargetsEmittedConcat(catchAll, own, [], [], rules.selectorGroups, rules.actionTargets);
        assert catchAll + [] == catchAll;
      }
    }
  }

  lemma NothingHasTargets(groups: seq<SelectorGroup>, actions: seq<string>)
    ensures TargetsEmitted([], groups, actions)
  {
  }

  lemma CatchAllEmitted(address: nat, device: string, profileUnsupported: string, own: seq<SelectorGroup>)
    requires |own| == 1 && own[0].name == DeviceGroupName(device, "default")
    ensures TargetsEmitted(CatchAll(address, device, profileUnsupported), own, [])
  {
  }

  lemma {:induction false} DocumentTargetsEmitted(devices: seq<ManagedDevice>, profiles: map<string, Profile>,
      templates: map<string, Template>,
                                                  ipOnlyDevicesActive: bool, inventory: Inventory)
    requires AddressesParsed(devices)
    requires CompiledSections(devices, profiles, templates, ipOnlyDevicesActive, inventory).Success?
    ensures AllTargetsEmitted(CompiledSections(devices, profiles, templates, ipOnlyDevicesActive, inventory).value)
  {
    hide CompiledDeviceSections, TargetsEmitted;
    NothingEmitted();
    if devices != [] {
      var n := |devices| - 1;
      DocumentTargetsEmitted(devices[..n], profiles, templates, ipOnlyDevicesActive, inventory);
      DeviceTargetsEmitted(devices[n], profiles, templates, ipOnlyDevicesActive, inventory);
      var a := CompiledSections(devices[..n], profiles, templates, ipOnlyDevicesActive, inventory).value;
      var b := CompiledDeviceSections(devices[n], profiles, templates, ipOnlyDevicesActive, inventory).value;
      TargetsEmittedConcat(a.overrideRules, a.selectorGroups, a.actionTargets, b.overrideRules, b.selectorGroups,
        b.actionTargets);
      TargetsEmittedConcat(a.dedicatedRules, a.selectorGroups, a.actionTargets, b.dedicatedRules, b.selectorGroups,
        b.actionTargets);
      TargetsEmittedConcat(a.defaultRules, a.selectorGroups, a.actionTargets, b.defaultRules, b.selectorGroups,
        b.actionTargets);
    }
  }

  // ---- Rule sets in use ----

  predicate Mentions(rules: seq<FlatRule>, condition: Condition) {
    exists i :: 0 <= i < |rules| && condition in rules[i].payloads
  }

  predicate VariantsMention(variants: Variants, condition: Condition) {
    exists i :: 0 <= i < |variants| && condition in variants[i]
  }

  lemma MentionsConcat(a: seq<FlatRule>, b: seq<FlatRule>, condition: Condition)
    ensures Mentions(a + b, condition) <==> Mentions(a, condition) || Mentions(b, condition)
  {
    if i :| 0 <= i < |a| && condition in a[i].payloads {
      assert (a + b)[i] == a[i];
    }
    if i :| 0 <= i < |b| && condition in b[i].payloads {
      assert (a + b)[|a| + i] == b[i];
    }
  }

  lemma {:induction false} CrossMentions(existing: Variants, conditions: seq<Condition>, condition: Condition)
    requires conditions != []
    ensures VariantsMention(Cross(existing, conditions), condition)
       <==> existing != [] && (condition in conditions || VariantsMention(existing, condition))
  {
    if existing != [] {
      var n := |existing| - 1;
      CrossMentions(existing[..n], conditions, condition);
      var before, added := Cross(existing[..n], conditions), Extensions(existing[n], conditions, |conditions|);
      assert existing == existing[..n] + [existing[n]];
      forall j | 0 <= j < |conditions|
        ensures condition in added[j] <==> condition in existing[n] || condition == conditions[j]
      {
        assert added[j] == existing[n] + [conditions[j]];
      }
      assert condition in existing[n] ==> condition in added[0];
      if i :| 0 <= i < |before| && condition in before[i] {
        assert (before + added)[i] == before[i];
      }
      if i :| 0 <= i < |added| && condition in added[i] {
        assert (before + added)[|before| + i] == added[i];
      }
    }
  }

  lemma DimensionMentions(existing: Variants, conditions: seq<Condition>, condition: Condition)
    requires existing != []
    ensures WithDimension(existing, conditions) != []
    ensures VariantsMention(WithDimension(existing, conditions), condition)
       <==> condition in conditions || VariantsMention(existing, condition)
  {
    if conditions != [] {
      CrossMentions(existing, conditions, condition);
      CrossShape(existing, conditions);
    }
  }

  lemma ProviderNameInjective(a: string, b: string)
    requires RuleSetProviderName(a) == RuleSetProviderName(b)
    ensures a == b
  {
    assert RuleSetProviderName(a)[19..] == a && RuleSetProviderName(b)[19..] == b;
  }

  /** An expansion mentions exactly the rule sets of its match. */
  lemma ExpansionMentions(when: RuleMatch, id: string)
    ensures VariantsMention(ExpandedVariants(when), InRuleSet(RuleSetProviderName(id))) <==> id in when.ruleSets
  {
    hide RuleSetProviderName;
    var provider := InRuleSet(RuleSetProviderName(id));
    var v0: Variants := [[]];
    var v1 := WithDimension(v0, DomainConditions(when.domains));
    DimensionMentions(v0, DomainConditions(when.domains), provider);
    var v2 := WithDimension(v1, CidrConditions(when.ipCidrs));
    DimensionMentions(v1, CidrConditions(when.ipCidrs), provider);
    var v3 := WithDimension(v2, ProtocolConditions(when.protocols));
    DimensionMentions(v2, ProtocolConditions(when.protocols), provider);
    var v4 := WithDimension(v3, PortConditions(when.ports));
    DimensionMentions(v3, PortConditions(when.ports), provider);
    DimensionMentions(v4, RuleSetConditions(when.ruleSets), provider);
    if provider in RuleSetConditions(when.ruleSets) {
      var i :| 0 <= i < |when.ruleSets| && RuleSetConditions(when.ruleSets)[i] == provider;
      ProviderNameInjective(id, when.ruleSets[i]);
    }
    if id in when.ruleSets {
      var i :| 0 <= i < |when.ruleSets| && when.ruleSets[i] == id;
      assert RuleSetConditions(when.ruleSets)[i] == provider;
    }
  }

  lemma {:induction false} VariantRulesMention(address: nat, variants: Variants, target: string, reject: bool,
      provider: string)
    ensures Mentions(AllVariantRules(address, variants, target, reject), InRuleSet(provider))
            <==> VariantsMention(variants, InRuleSet(provider))
  {
    if variants != [] {
      var n := |variants| - 1;
      VariantRulesMention(address, variants[..n], target, reject, provider);
      var last := VariantRules(address, variants[n], target, reject);
      MentionsConcat(AllVariantRules(address, variants[..n], target, reject), last, InRuleSet(provider));
      assert variants == variants[..n] + [variants[n]];
      assert InRuleSet(provider) in last[0].payloads <==> InRuleSet(provider) in variants[n];
    }
  }

  /** A rule set counts as used exactly when some compiled rule refers to its provider. */
  ghost predicate UsedMeansMentioned(used: set<string>, rules: seq<FlatRule>) {
    forall id :: id in used <==> Mentions(rules, InRuleSet(RuleSetProviderName(id)))
  }

  lemma UsedConcat(u1: set<string>, r1: seq<FlatRule>, u2: set<string>, r2: seq<FlatRule>)
    requires UsedMeansMentioned(u1, r1) && UsedMeansMentioned(u2, r2)
    ensures UsedMeansMentioned(u1 + u2, r1 + r2)
  {
    hide RuleSetProviderName, Mentions;
    forall id ensures id in u1 + u2 <==> Mentions(r1 + r2, InRuleSet(RuleSetProviderName(id))) {
      MentionsConcat(r1, r2, InRuleSet(RuleSetProviderName(id)));
    }
  }

  lemma RuleUses(device: string, address: nat, rule: Rule, profileUnsupported: string, templates: map<string,
      Template>, inventory: Inventory)
    requires CompiledRule(device, address, rule, profileUnsupported, templates, inventory).Success?
    ensures var output := CompiledRule(device, address, rule, profileUnsupported, templates, inventory).value;
            UsedMeansMentioned(output.usedRuleSets, output.overrideRules)
  {
    hide ResolvedSelector, ExpandedVariants, DeviceGroupName, AllVariantRules, TargetAvailable, RuleSetProviderName;
    var (output, target) := RuleTarget(device, rule, inventory);
    if target.Some? {
      var expansion := ExpandedMatch(rule.when, templates).value;
      var reject := ResolveUnsupported(rule.onUnsupported, profileUnsupported) == "reject";
      forall id
        ensures id in Elements(expansion.references)
           <==> Mentions(AllVariantRules(address, expansion.variants, target.value, reject),
                         InRuleSet(RuleSetProviderName(id)))
      {
        ExpansionMentions(Expanded(rule.when, templates), id);
        VariantRulesMention(address, expansion.variants, target.value, reject, RuleSetProviderName(id));
      }
    }
  }

  lemma {:induction false} RulesUse(device: string, address: nat, rules: seq<Rule>, profileUnsupported: string,
                                    templates: map<string, Template>, inventory: Inventory)
    requires CompiledRules(device, address, rules, profileUnsupported, templates, inventory).Success?
    ensures var output := CompiledRules(device, address, rules, profileUnsupported, templates, inventory).value;
            UsedMeansMentioned(output.usedRuleSets, output.overrideRules)
  {
    hide CompiledRule, UsedMeansMentioned;
    NothingUsed();
    if rules != [] {
      var n := |rules| - 1;
      RulesUse(device, address, rules[..n], profileUnsupported, templates, inventory);
      RuleUses(device, address, rules[n], profileUnsupported, templates, inventory);
      var a := CompiledRules(device, address, rules[..n], profileUnsupported, templates, inventory).value;
      var b := CompiledRule(device, address, rules[n], profileUnsupported, templates, inventory).value;
      UsedConcat(a.usedRuleSets, a.overrideRules, b.usedRuleSets, b.overrideRules);
    }
  }

  lemma NothingUsed()
    ensures UsedMeansMentioned({}, [])
  {
  }

  lemma {:induction false} DocumentUses(devices: seq<ManagedDevice>, profiles: map<string, Profile>,
      templates: map<string, Template>,
                                        ipOnlyDevicesActive: bool, inventory: Inventory)
    requires AddressesParsed(devices)
    requires CompiledSections(devices, profiles, templates, ipOnlyDevicesActive, inventory).Success?
    ensures var sections := CompiledSections(devices, profiles, templates, ipOnlyDevicesActive, inventory).value;
            UsedMeansMentioned(sections.usedRuleSets, sections.overrideRules)
  {
    hide CompiledRules, UsedMeansMentioned, ResolveProfile, DefaultSelector, CatchAll;
    NothingUsed();
    if devices != [] {
      var n := |devices| - 1;
      DocumentUses(devices[..n], profiles, templates, ipOnlyDevicesActive, inventory);
      var a := CompiledSections(devices[..n], profiles, templates, ipOnlyDevicesActive, inventory).value;
      var b := CompiledDeviceSections(devices[n], profiles, templates, ipOnlyDevicesActive, inventory).value;
      if Routed(devices[n], ipOnlyDevicesActive) {
        var profile := ResolveProfile(ProfileOf(devices[n], profiles), templates).value;
        RulesUse(devices[n].id, devices[n].ipv4.address, profile.rules, profile.onUnsupported, templates, inventory);
      }
      UsedConcat(a.usedRuleSets, a.overrideRules, b.usedRuleSets, b.overrideRules);
    }
  }

  // ---- Inventories that lack nothing ----

  /** Everything the rule may send packets to is in the inventory. */
  predicate RuleAvailable(rule: Rule, inventory: Inventory) {
    if rule.policies != [] then forall i :: 0 <= i < |rule.policies| ==> TargetAvailable(inventory, rule.policies[i])
    else TargetAvailable(inventory, rule.action)
  }

  predicate ProfileAvailable(profile: Profile, inventory: Inventory) {
    && (forall i :: 0 <= i < |profile.defaultPolicies| ==> TargetAvailable(inventory, profile.defaultPolicies[i]))
    && (forall i :: 0 <= i < |profile.rules| ==> RuleAvailable(profile.rules[i], inventory))
  }

  lemma CompleteSelector(resolution: PolicyResolution, device: string, slot: string, candidates: seq<string>)
    requires forall i :: 0 <= i < |candidates| ==> TargetAvailable(Some(resolution), candidates[i])
    ensures ResolvedSelector(Some(resolution), device, slot, candidates)
            == ResolvedSelector(None, device, slot, candidates)
  {
    KeepAll(candidates, Some(resolution));
  }

  lemma {:induction false} CompleteRules(device: string, address: nat, rules: seq<Rule>, profileUnsupported: string,
                                         templates: map<string, Template>, resolution: PolicyResolution)
    requires forall i :: 0 <= i < |rules| ==> RuleAvailable(rules[i], Some(resolution))
    ensures CompiledRules(device, address, rules, profileUnsupported, templates, Some(resolution))
         == CompiledRules(device, address, rules, profileUnsupported, templates, None)
  {
    hide ResolvedSelector, ExpandedMatch, DeviceGroupName, AllVariantRules, BuiltIn, Merge;
    if rules != [] {
      var n := |rules| - 1;
      CompleteRules(device, address, rules[..n], profileUnsupported, templates, resolution);
      assert RuleAvailable(rules[n], Some(resolution));
      if rules[n].policies != [] {
        CompleteSelector(resolution, device, rules[n].id, rules[n].policies);
      }
    }
  }

  /** The profiles of all devices on the data path are available. */
  predicate InventoryComplete(devices: seq<ManagedDevice>, profiles: map<string, Profile>, templates: map<string,
      Template>,
                              ipOnlyDevicesActive: bool, inventory: Inventory)
  {
    forall i :: 0 <= i < |devices| && Routed(devices[i], ipOnlyDevicesActive) ==>
      var resolved := ResolveProfile(ProfileOf(devices[i], profiles), templates);
      resolved.Success? ==> ProfileAvailable(resolved.value, inventory)
  }

  /** Resolving against an inventory that contains every target compiles to the same policy as no resolution. */
  lemma {:induction false} CompleteInventoryChangesNothing(
    devices: seq<ManagedDevice>, profiles: map<string, Profile>, templates: map<string, Template>,
    ipOnlyDevicesActive: bool, resolution: PolicyResolution)
    requires AddressesParsed(devices)
    requires InventoryComplete(devices, profiles, templates, ipOnlyDevicesActive, Some(resolution))
    ensures CompiledSections(devices, profiles, templates, ipOnlyDevicesActive, Some(resolution))
         == CompiledSections(devices, profiles, templates, ipOnlyDevicesActive, None)
  {
    hide CompiledDeviceSections, Append, ProfileAvailable, Routed;
    if devices != [] {
      var n := |devices| - 1;
      CompleteInventoryChangesNothing(devices[..n], profiles, templates, ipOnlyDevicesActive, resolution);
      CompleteDevice(devices[n], profiles, templates, ipOnlyDevicesActive, resolution);
    }
  }

  lemma CompleteDevice(
    managed: ManagedDevice, profiles: map<string, Profile>, templates: map<string, Template>,
    ipOnlyDevicesActive: bool, resolution: PolicyResolution)
    requires managed.ipv4.IPv4?
    requires InventoryComplete([managed], profiles, templates, ipOnlyDevicesActive, Some(resolution))
    ensures CompiledDeviceSections(managed, profiles, templates, ipOnlyDevicesActive, Some(resolution))
         == CompiledDeviceSections(managed, profiles, templates, ipOnlyDevicesActive, None)
  {
    hide CompiledRules, ResolvedSelector, ResolveProfile, CatchAll, TargetAvailable, RuleAvailable;
    assert [managed][0] == managed;
    var resolved := ResolveProfile(ProfileOf(managed, profiles), templates);
    if Routed(managed, ipOnlyDevicesActive) && resolved.Success? {
      var profile := resolved.value;
      assert ProfileAvailable(profile, Some(resolution));
      CompleteSelector(resolution, managed.id, "default", profile.defaultPolicies);
      CompleteRules(managed.id, managed.ipv4.address, profile.rules, profile.onUnsupported, templates, resolution);
    }
  }
}
