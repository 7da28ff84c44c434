/** `ValidatePolicySet` and its helpers: loops that stop at the first fault. Each
    reports a fault exactly when the declarative predicate of `PolicyModel` is false. */
module PolicyValidation {
  import opened Text
  import opened PolicyModel

  type Fault = Option<PolicyError>

  method ValidatePolicyList(policies: seq<string>) returns (ok: bool)
    ensures ok <==> ValidPolicyList(policies)
  {
    hide ValidPolicy;
    if |policies| == 0 {
      return false;
    }
    var seen: set<string> := {};
    for i := 0 to |policies|
      invariant seen == Elements(policies[..i])
      invariant forall k :: 0 <= k < i ==> ValidPolicy(policies[k])
      invariant Distinct(policies[..i])
    {
      if !ValidPolicy(policies[i]) || policies[i] in seen {
        return false;
      }
      seen := seen + {policies[i]};
    }
    assert policies[..|policies|] == policies;
    return true;
  }

  method ValidateMatch(when: RuleMatch, ruleSets: set<string>, templates: map<string, Template>, parsers: Parsers)
    returns (ok: bool)
    ensures ok <==> ValidMatch(when, ruleSets, templates, parsers)
  {
    hide ValidDomain, ValidPortRange, Lower, CombinationCount;
    var directDimensions := |when.domains| + |when.ipCidrs| + |when.protocols| + |when.ports| + |when.ruleSets|;
    if when.template != "" {
      if directDimensions != 0 || when.template !in templates || |templates[when.template].ruleSets| == 0 {
        return false;
      }
    } else if directDimensions == 0 {
      return false;
    }
    for i := 0 to |when.domains|
      invariant forall k :: 0 <= k < i ==> ValidDomain(when.domains[k])
    {
      if !ValidDomain(when.domains[i]) { return false; }
    }
    for i := 0 to |when.ipCidrs|
      invariant forall k :: 0 <= k < i ==> parsers.cidrOk(when.ipCidrs[k])
    {
      if !parsers.cidrOk(when.ipCidrs[i]) { return false; }
    }
    for i := 0 to |when.protocols|
      invariant forall k :: 0 <= k < i ==> Lower(when.protocols[k]) in {"tcp", "udp"}
    {
      if Lower(when.protocols[i]) !in {"tcp", "udp"} { return false; }
    }
    for i := 0 to |when.ports|
      invariant forall k :: 0 <= k < i ==> ValidPortRange(when.ports[k])
    {
      if !ValidPortRange(when.ports[i]) { return false; }
    }
    for i := 0 to |when.ruleSets|
      invariant forall k :: 0 <= k < i ==> when.ruleSets[k] in ruleSets
    {
      if when.ruleSets[i] !in ruleSets { return false; }
    }
    return CombinationCount(when, templates) <= MAX_VARIANTS;
  }

  method ValidateRules(owner: string, rules: seq<Rule>, ruleSets: set<string>, templates: map<string, Template>,
      parsers: Parsers)
    returns (fault: Fault)
    ensures fault.None? <==> ValidRules(rules, ruleSets, templates, parsers)
  {
    hide ValidID, ValidMatch, ValidUnsupported, ValidPolicy, ValidPolicyList;
    var seen: set<string> := {};
    for i := 0 to |rules|
      invariant seen == set k | 0 <= k < i :: rules[k].id
      invariant forall k :: 0 <= k < i ==> ValidRule(rules[k], ruleSets, templates, parsers)
      invariant forall k, n :: 0 <= k < n < i ==> rules[k].id != rules[n].id
    {
      var rule := rules[i];
      if !ValidID(rule.id) || rule.id == "default" || rule.id in seen {
        return Some(BadRule(owner, rule.id));
      }
      seen := seen + {rule.id};
      var matchOk := ValidateMatch(rule.when, ruleSets, templates, parsers);
      if !matchOk || !ValidUnsupported(rule.onUnsupported) {
        return Some(BadRule(owner, rule.id));
      }
      if |rule.policies| > 0 {
        var listOk := ValidatePolicyList(rule.policies);
        if rule.action != "" || !listOk {
          return Some(BadRule(owner, rule.id));
        }
      } else if !ValidPolicy(rule.action) {
        return Some(BadRule(owner, rule.id));
      }
    }
    return None;
  }

  method ValidateProfileIDs(profiles: seq<Profile>) returns (fault: Fault, table: map<string, Profile>)
    ensures fault.None? <==> ValidProfileIDs(profiles)
    ensures fault.None? ==> table == ProfileTable(profiles)
  {
    hide ValidID;
    table := map[];
    for i := 0 to |profiles|
      invariant table == ProfileTable(profiles[..i])
      invariant table.Keys == (set k | 0 <= k < i :: profiles[k].id)
      invariant forall k :: 0 <= k < i ==> ValidID(profiles[k].id)
      invariant forall k, n :: 0 <= k < n < i ==> profiles[k].id != profiles[n].id
    {
      var profile := profiles[i];
      if !ValidID(profile.id) || profile.id in table {
        return Some(BadProfile(profile.id)), table;
      }
      TableStep(profiles, ProfileID, i);
      table := table[profile.id := profile];
    }
    assert profiles[..|profiles|] == profiles;
    fault := None;
  }

  method ValidateTemplateHeads(templates: seq<Template>) returns (fault: Fault, table: map<string, Template>)
    ensures fault.None? <==> ValidTemplateHeads(templates)
    ensures fault.None? ==> table == TemplateTable(templates)
  {
    hide ValidPolicyList, ValidUnsupported, ValidID;
    table := map[];
    for i := 0 to |templates|
      invariant table == TemplateTable(templates[..i])
      invariant table.Keys == (set k | 0 <= k < i :: templates[k].id)
      invariant forall k :: 0 <= k < i ==> ValidTemplateHead(templates[k])
      invariant forall k, n :: 0 <= k < n < i ==> templates[k].id != templates[n].id
    {
      var template := templates[i];
      if !ValidID(template.id) || template.id in table {
        return Some(BadTemplate(template.id)), table;
      }
      if |template.defaultPolicies| > 0 {
        var listOk := ValidatePolicyList(template.defaultPolicies);
        if !listOk { return Some(BadTemplate(template.id)), table; }
      }
      if !ValidUnsupported(template.onUnsupported) {
        return Some(BadTemplate(template.id)), table;
      }
      TableStep(templates, TemplateID, i);
      table := table[template.id := template];
    }
    assert templates[..|templates|] == templates;
    fault := None;
  }

  method ValidateRuleSets(ruleSets: seq<RuleSet>, parsers: Parsers) returns (fault: Fault, seen: set<string>)
    ensures fault.None? <==> ValidRuleSets(ruleSets, parsers)
    ensures fault.None? ==> seen == RuleSetTable(ruleSets).Keys
  {
    hide ValidRuleSet, NormalizedRuleSet;
    seen := {};
    for i := 0 to |ruleSets|
      invariant seen == set k | 0 <= k < i :: ruleSets[k].id
      invariant forall k :: 0 <= k < i ==> ValidRuleSet(ruleSets[k], parsers)
      invariant forall k, n :: 0 <= k < n < i ==> ruleSets[k].id != ruleSets[n].id
    {
      var ruleSet := ruleSets[i];
      if !ValidRuleSet(ruleSet, parsers) || ruleSet.id in seen {
        return Some(BadRuleSet(ruleSet.id)), seen;
      }
      seen := seen + {ruleSet.id};
    }
    TableKeys(ruleSets, RuleSetID);
    fault := None;
  }

  /** The checks of one device that involve no other device. */
  method ValidateDevice(managed: ManagedDevice, profiles: set<string>) returns (ok: bool)
    ensures ok <==> ValidDevice(managed, profiles)
  {
    if !ValidID(managed.id) || !ValidDeviceName(managed.name) || managed.mac.BadMac? || managed.ipv4.BadIPv4? {
      return false;
    }
    if managed.profile !in profiles
      || managed.egressMode !in {"", INHERIT_GLOBAL, DEDICATED}
      || managed.gatewayTarget !in {"", OPENSURGE, UPSTREAM_ROUTER}
      || managed.dnsView !in {"", "auto", "gateway", "resolver"}
    {
      return false;
    }
    return !(UsesUpstreamRouter(managed) && (EffectiveDNSView(managed.dnsView) == "gateway" || managed.mac.NoMac?));
  }

  /** The identities of the first `n` devices. */
  ghost predicate Seen(devices: seq<ManagedDevice>, n: nat, ids: set<string>, macs: set<MacText>, ips: set<IPv4Text>)
    requires n <= |devices|
  {
    && ids == (set k | 0 <= k < n :: devices[k].id)
    && ips == (set k | 0 <= k < n :: devices[k].ipv4)
    && macs == (set k | 0 <= k < n && devices[k].mac.Mac? :: devices[k].mac)
  }

  lemma SeenMeansClash(devices: seq<ManagedDevice>, n: nat, ids: set<string>, macs: set<MacText>, ips: set<IPv4Text>)
    requires n < |devices| && Seen(devices, n, ids, macs, ips)
    ensures (devices[n].id in ids || devices[n].mac in macs || devices[n].ipv4 in ips)
       <==> exists k :: 0 <= k < n && Clash(devices[k], devices[n])
  {
    if k :| 0 <= k < n && Clash(devices[k], devices[n]) {
      assert devices[k].id in ids && devices[k].ipv4 in ips && (devices[k].mac.Mac? ==> devices[k].mac in macs);
    }
  }

  method ValidateDevices(devices: seq<ManagedDevice>, profiles: set<string>) returns (fault: Fault)
    ensures fault.None? <==> ValidDevices(devices, profiles)
  {
    hide ValidDevice, Clash;
    var seenIDs: set<string>, seenMACs: set<MacText>, seenIPs: set<IPv4Text> := {}, {}, {};
    for i := 0 to |devices|
      invariant Seen(devices, i, seenIDs, seenMACs, seenIPs)
      invariant forall k :: 0 <= k < i ==> ValidDevice(devices[k], profiles)
      invariant forall k, n :: 0 <= k < n < i ==> !Clash(devices[k], devices[n])
    {
      var managed := devices[i];
      var ok := ValidateDevice(managed, profiles);
      if !ok {
        return Some(BadDevice(managed.id));
      }
      SeenMeansClash(devices, i, seenIDs, seenMACs, seenIPs);
      if managed.id in seenIDs || managed.mac in seenMACs || managed.ipv4 in seenIPs {
        return Some(BadDevice(managed.id));
      }
      seenIDs, seenIPs := seenIDs + {managed.id}, seenIPs + {managed.ipv4};
      if managed.mac.Mac? {
        seenMACs := seenMACs + {managed.mac};
      }
    }
    fault := None;
  }

  method ValidateTemplateBody(template: Template, ruleSets: set<string>, templates: map<string, Template>,
      parsers: Parsers)
    returns (fault: Fault)
    ensures fault.None? <==> ValidTemplateBody(template, ruleSets, templates, parsers)
  {
    hide ValidRules;
    for j := 0 to |template.ruleSets|
      invariant forall k :: 0 <= k < j ==> template.ruleSets[k] in ruleSets
    {
      if template.ruleSets[j] !in ruleSets { return Some(BadTemplate(template.id)); }
    }
    fault := ValidateRules("template " + template.id, template.rules, ruleSets, templates, parsers);
  }

  method ValidateProfile(profile: Profile, ruleSets: set<string>, templates: map<string, Template>, parsers: Parsers)
    returns (fault: Fault)
    ensures fault.None? <==> ValidProfile(profile, ruleSets, templates, parsers)
  {
    hide ValidRules, ValidPolicyList, ValidUnsupported;
    if profile.template != "" && profile.template !in templates {
      return Some(BadProfile(profile.id));
    }
    if |profile.defaultPolicies| > 0 {
      var listOk := ValidatePolicyList(profile.defaultPolicies);
      if !listOk { return Some(BadProfile(profile.id)); }
    }
    var resolved := ResolveProfile(profile, templates);
    if !ValidUnsupported(profile.onUnsupported) || resolved.Failure? || |resolved.value.defaultPolicies| == 0 {
      return Some(BadProfile(profile.id));
    }
    fault := ValidateRules(profile.id, resolved.value.rules, ruleSets, templates, parsers);
  }

  /** The document is accepted exactly when it is valid. */
  method ValidatePolicySet(policy: PolicySet, parsers: Parsers) returns (fault: Fault)
    ensures fault.None? <==> ValidPolicySet(policy, parsers)
  {
    hide ValidProfileIDs, ValidTemplateHeads, ValidRuleSets, ValidTemplateBody, ValidProfile, ValidDevices,
      ProfileTable, TemplateTable, RuleSetTable;
    var profiles, templates, ruleSets;
    fault, profiles := ValidateProfileIDs(policy.profiles);
    if fault.Some? { return; }
    fault, templates := ValidateTemplateHeads(policy.templates);
    if fault.Some? { return; }
    fault, ruleSets := ValidateRuleSets(policy.ruleSets, parsers);
    if fault.Some? { return; }
    for i := 0 to |policy.templates|
      invariant forall k :: 0 <= k < i ==> ValidTemplateBody(policy.templates[k], ruleSets, templates, parsers)
    {
      fault := ValidateTemplateBody(policy.templates[i], ruleSets, templates, parsers);
      if fault.Some? { return; }
    }
    for i := 0 to |policy.profiles|
      invariant forall k :: 0 <= k < i ==> ValidProfile(policy.profiles[k], ruleSets, templates, parsers)
    {
      fault := ValidateProfile(policy.profiles[i], ruleSets, templates, parsers);
      if fault.Some? { return; }
    }
    fault := ValidateDevices(policy.devices, profiles.Keys);
  }
}
