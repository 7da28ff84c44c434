/** What compiled rules do to a packet, what the source document says should happen
    to it, and the proof that the two agree. */
module PolicyMeaning {
  import opened Text
  import opened PolicyModel
  import opened PolicyCompiler

  /** A packet: its source address, every other condition that holds of it, and the
      targets able to carry it. Built-in targets carry everything. */
  datatype Packet = Packet(source: nat, facts: iset<Condition>, carriers: iset<string>)

  ghost predicate Holds(condition: Condition, packet: Packet) {
    if condition.SourceIP? then packet.source == condition.address else condition in packet.facts
  }

  ghost predicate AllHold(payloads: seq<Condition>, packet: Packet) {
    forall i :: 0 <= i < |payloads| ==> Holds(payloads[i], packet)
  }

  ghost predicate Carries(target: string, packet: Packet) {
    BuiltIn(target) || target in packet.carriers
  }

  /** First-match evaluation; a rule whose target cannot carry the packet is skipped. */
  ghost function FirstMatch(rules: seq<FlatRule>, packet: Packet): Option<string> {
    if rules == [] then None
    else if AllHold(rules[0].payloads, packet) && Carries(rules[0].target, packet) then Some(rules[0].target)
    else FirstMatch(rules[1..], packet)
  }

  // ---- The reference meaning: the profile interpreted directly ----

  /** A match is an AND across populated fields and an OR within each field. */
  ghost predicate MatchHolds(when: RuleMatch, templates: map<string, Template>, packet: Packet)
    requires when.template != "" ==> when.template in templates
  {
    var ruleSets := if when.template != "" then templates[when.template].ruleSets else when.ruleSets;
    && (when.domains == [] || exists d :: d in when.domains && DomainSuffix(Lower(d)) in packet.facts)
    && (when.ipCidrs == [] || exists c :: c in when.ipCidrs && IPCidr(c) in packet.facts)
    && (when.protocols == [] || exists p :: p in when.protocols && Network(Lower(p)) in packet.facts)
    && (when.ports == [] || exists p :: p in when.ports && DstPort(p) in packet.facts)
    && (ruleSets == [] || exists r :: r in ruleSets && InRuleSet(RuleSetProviderName(r)) in packet.facts)
  }

  /** A selector survives when nothing is missing, or when its known effective choice is still available. */
  ghost predicate SelectorKept(inventory: Inventory, device: string, slot: string, candidates: seq<string>) {
    && candidates != []
    && ((forall i :: 0 <= i < |candidates| ==> TargetAvailable(inventory, candidates[i]))
        || (var group := DeviceGroupName(device, slot);
            && !SelectionUnknown(inventory.value, group)
            && TargetAvailable(inventory, EffectiveSelection(inventory.value, group, candidates))))
  }

  /** What one rule of a device does with a packet: a target, or nothing. */
  ghost function RuleDecision(device: string, rule: Rule, profileUnsupported: string, templates: map<string, Template>,
                              inventory: Inventory, packet: Packet): Option<string>
    requires rule.when.template != "" ==> rule.when.template in templates
  {
    var target := if rule.policies != [] then DeviceGroupName(device, rule.id) else rule.action;
    var enabled := if rule.policies != [] then SelectorKept(inventory, device, rule.id, rule.policies)
                   else TargetAvailable(inventory, rule.action);
    if !enabled || !MatchHolds(rule.when, templates, packet) then None
    else if Carries(target, packet) then Some(target)
    else if ResolveUnsupported(rule.onUnsupported, profileUnsupported) == "reject" then Some("REJECT")
    else None
  }

  ghost predicate TemplatesKnown(rules: seq<Rule>, templates: map<string, Template>) {
    forall i :: 0 <= i < |rules| ==> (rules[i].when.template != "" ==> rules[i].when.template in templates)
  }

  /** The first rule that decides the packet. */
  ghost function RulesDecision(device: string, rules: seq<Rule>, profileUnsupported: string, templates: map<string,
      Template>,
                               inventory: Inventory, packet: Packet): Option<string>
    requires TemplatesKnown(rules, templates)
  {
    if rules == [] then None
    else
      var first := RuleDecision(device, rules[0], profileUnsupported, templates, inventory, packet);
      if first.Some? then first
      else RulesDecision(device, rules[1..], profileUnsupported, templates, inventory, packet)
  }

  /** The device's own selector as a last resort, in the given egress mode. */
  ghost function CatchAllDecision(managed: ManagedDevice, profile: Profile, mode: string, inventory: Inventory,
      packet: Packet)
    : Option<string>
  {
    var group := DeviceGroupName(managed.id, "default");
    if EffectiveEgressMode(managed.egressMode) != mode
    || !SelectorKept(inventory, managed.id, "default", profile.defaultPolicies) then None
    else if Carries(group, packet) then Some(group)
    else if ResolveUnsupported("", profile.onUnsupported) == "reject" then Some("REJECT")
    else None
  }

  // ---- First-match evaluation of concatenated lists ----

  lemma {:induction false} FirstMatchConcat(a: seq<FlatRule>, b: seq<FlatRule>, packet: Packet)
    ensures FirstMatch(a + b, packet) == if FirstMatch(a, packet).Some? then FirstMatch(a, packet)
            else FirstMatch(b, packet)
  {
    if a == [] {
      assert a + b == b;
    } else {
      assert (a + b)[0] == a[0] && (a + b)[1..] == a[1..] + b;
      FirstMatchConcat(a[1..], b, packet);
    }
  }

  /** The head rule or the rest. */
  lemma FirstMatchPair(first: FlatRule, second: seq<FlatRule>, packet: Packet)
    ensures FirstMatch([first] + second, packet) ==
      if AllHold(first.payloads, packet)
      && Carries(first.target, packet) then Some(first.target) else FirstMatch(second, packet)
  {
    assert ([first] + second)[1..] == second;
  }

  // ---- The cartesian expansion means the AND of ORs ----

  ghost predicate AnyHolds(conditions: seq<Condition>, packet: Packet) {
    exists i :: 0 <= i < |conditions| && Holds(conditions[i], packet)
  }

  ghost predicate SomeVariantHolds(variants: Variants, packet: Packet) {
    exists i :: 0 <= i < |variants| && AllHold(variants[i], packet)
  }

  lemma SomeVariantOfConcat(a: Variants, b: Variants, packet: Packet)
    ensures SomeVariantHolds(a + b, packet) <==> SomeVariantHolds(a, packet) || SomeVariantHolds(b, packet)
  {
    if i :| 0 <= i < |a| && AllHold(a[i], packet) {
      assert (a + b)[i] == a[i];
    }
    if j :| 0 <= j < |b| && AllHold(b[j], packet) {
      assert (a + b)[|a| + j] == b[j];
    }
  }

  lemma ExtensionsMeaning(prior: seq<Condition>, conditions: seq<Condition>, packet: Packet)
    ensures SomeVariantHolds(Extensions(prior, conditions, |conditions|), packet)
       <==> AllHold(prior, packet) && AnyHolds(conditions, packet)
  {
    var extended := Extensions(prior, conditions, |conditions|);
    forall j | 0 <= j < |conditions|
      ensures AllHold(extended[j], packet) <==> AllHold(prior, packet) && Holds(conditions[j], packet)
    {
      assert extended[j] == prior + [conditions[j]];
      assert extended[j][|prior|] == conditions[j] && forall i :: 0 <= i < |prior| ==> extended[j][i] == prior[i];
    }
  }

  lemma {:induction false} CrossMeaning(existing: Variants, conditions: seq<Condition>, packet: Packet)
    ensures SomeVariantHolds(Cross(existing, conditions), packet)
       <==> SomeVariantHolds(existing, packet) && AnyHolds(conditions, packet)
  {
    if existing != [] {
      var n := |existing| - 1;
      CrossMeaning(existing[..n], conditions, packet);
      ExtensionsMeaning(existing[n], conditions, packet);
      SomeVariantOfConcat(Cross(existing[..n], conditions), Extensions(existing[n], conditions, |conditions|), packet);
      SomeVariantOfConcat(existing[..n], [existing[n]], packet);
      assert existing == existing[..n] + [existing[n]];
      assert SomeVariantHolds([existing[n]], packet) <==> AllHold([existing[n]][0], packet);
    }
  }

  lemma DimensionMeaning(existing: Variants, conditions: seq<Condition>, packet: Packet)
    ensures SomeVariantHolds(WithDimension(existing, conditions), packet)
       <==> SomeVariantHolds(existing, packet) && (conditions == [] || AnyHolds(conditions, packet))
  {
    if conditions != [] {
      CrossMeaning(existing, conditions, packet);
    }
  }

  /** Some variant of the expansion holds exactly when the match holds. */
  lemma ExpansionMeaning(when: RuleMatch, templates: map<string, Template>, packet: Packet)
    requires when.template != "" ==> when.template in templates
    ensures SomeVariantHolds(ExpandedVariants(Expanded(when, templates)), packet)
            <==> MatchHolds(when, templates, packet)
  {
    hide WithDimension, DomainConditions, CidrConditions, ProtocolConditions, PortConditions, RuleSetConditions,
      SomeVariantHolds, Lower, RuleSetProviderName;
    var e := Expanded(when, templates);
    var v0: Variants := [[]];
    var v1 := WithDimension(v0, DomainConditions(e.domains));
    var v2 := WithDimension(v1, CidrConditions(e.ipCidrs));
    var v3 := WithDimension(v2, ProtocolConditions(e.protocols));
    var v4 := WithDimension(v3, PortConditions(e.ports));
    EmptyVariantHolds(packet);
    DomainMeaning(v0, e.domains, packet);
    CidrMeaning(v1, e.ipCidrs, packet);
    ProtocolMeaning(v2, e.protocols, packet);
    PortMeaning(v3, e.ports, packet);
    RuleSetMeaning(v4, e.ruleSets, packet);
  }

  lemma EmptyVariantHolds(packet: Packet)
    ensures SomeVariantHolds([[]], packet)
  {
    var variants: Variants := [[]];
    assert AllHold(variants[0], packet);
  }

  lemma DomainMeaning(existing: Variants, domains: seq<string>, packet: Packet)
    ensures SomeVariantHolds(WithDimension(existing, DomainConditions(domains)), packet)
       <==> SomeVariantHolds(existing, packet)
            && (domains == [] || exists d :: d in domains && DomainSuffix(Lower(d)) in packet.facts)
  {
    hide WithDimension, SomeVariantHolds, Lower, RuleSetProviderName;
    var conditions := DomainConditions(domains);
    DimensionMeaning(existing, conditions, packet);
    if d :| d in domains && DomainSuffix(Lower(d)) in packet.facts {
      var i :| 0 <= i < |domains| && domains[i] == d;
      assert Holds(conditions[i], packet);
    }
    if i :| 0 <= i < |conditions| && Holds(conditions[i], packet) {
      assert domains[i] in domains;
    }
  }

  lemma CidrMeaning(existing: Variants, cidrs: seq<string>, packet: Packet)
    ensures SomeVariantHolds(WithDimension(existing, CidrConditions(cidrs)), packet)
       <==> SomeVariantHolds(existing, packet) && (cidrs == [] || exists c :: c in cidrs && IPCidr(c) in packet.facts)
  {
    hide WithDimension, SomeVariantHolds, Lower, RuleSetProviderName;
    var conditions := CidrConditions(cidrs);
    DimensionMeaning(existing, conditions, packet);
    if c :| c in cidrs && IPCidr(c) in packet.facts {
      var i :| 0 <= i < |cidrs| && cidrs[i] == c;
      assert Holds(conditions[i], packet);
    }
    if i :| 0 <= i < |conditions| && Holds(conditions[i], packet) {
      assert cidrs[i] in cidrs;
    }
  }

  lemma ProtocolMeaning(existing: Variants, protocols: seq<string>, packet: Packet)
    ensures SomeVariantHolds(WithDimension(existing, ProtocolConditions(protocols)), packet)
       <==> SomeVariantHolds(existing, packet)
            && (protocols == [] || exists p :: p in protocols && Network(Lower(p)) in packet.facts)
  {
    hide WithDimension, SomeVariantHolds, Lower, RuleSetProviderName;
    var conditions := ProtocolConditions(protocols);
    DimensionMeaning(existing, conditions, packet);
    if p :| p in protocols && Network(Lower(p)) in packet.facts {
      var i :| 0 <= i < |protocols| && protocols[i] == p;
      assert Holds(conditions[i], packet);
    }
    if i :| 0 <= i < |conditions| && Holds(conditions[i], packet) {
      assert protocols[i] in protocols;
    }
  }

  lemma PortMeaning(existing: Variants, ports: seq<string>, packet: Packet)
    ensures SomeVariantHolds(WithDimension(existing, PortConditions(ports)), packet)
       <==> SomeVariantHolds(existing, packet) && (ports == [] || exists p :: p in ports && DstPort(p) in packet.facts)
  {
    hide WithDimension, SomeVariantHolds, Lower, RuleSetProviderName;
    var conditions := PortConditions(ports);
    DimensionMeaning(existing, conditions, packet);
    if p :| p in ports && DstPort(p) in packet.facts {
      var i :| 0 <= i < |ports| && ports[i] == p;
      assert Holds(conditions[i], packet);
    }
    if i :| 0 <= i < |conditions| && Holds(conditions[i], packet) {
      assert ports[i] in ports;
    }
  }

  lemma RuleSetMeaning(existing: Variants, ids: seq<string>, packet: Packet)
    ensures SomeVariantHolds(WithDimension(existing, RuleSetConditions(ids)), packet)
       <==> SomeVariantHolds(existing, packet)
            && (ids == [] || exists r :: r in ids && InRuleSet(RuleSetProviderName(r)) in packet.facts)
  {
    hide WithDimension, SomeVariantHolds, Lower, RuleSetProviderName;
    var conditions := RuleSetConditions(ids);
    DimensionMeaning(existing, conditions, packet);
    if r :| r in ids && InRuleSet(RuleSetProviderName(r)) in packet.facts {
      var i :| 0 <= i < |ids| && ids[i] == r;
      assert Holds(conditions[i], packet);
    }
    if i :| 0 <= i < |conditions| && Holds(conditions[i], packet) {
      assert ids[i] in ids;
    }
  }

  // ---- Selectors ----

  lemma {:induction false} KeepMembers(candidates: seq<string>, inventory: Inventory, available: bool)
    ensures forall x :: x in Keep(candidates, inventory, available) <==>
                          x in candidates && TargetAvailable(inventory, x) == available
  {
    hide TargetAvailable;
    if candidates != [] {
      var n := |candidates| - 1;
      KeepMembers(candidates[..n], inventory, available);
      assert candidates == candidates[..n] + [candidates[n]];
    }
  }

  lemma MoveToFrontMembers(xs: seq<string>, x: string)
    ensures multiset(MoveToFront(xs, x)) == multiset(xs)
    ensures x in xs ==> MoveToFront(xs, x)[0] == x
  {
    var i := Position(xs, x);
    if i == |xs| {
      assert xs[..i] == xs;
    } else if i > 0 {
      assert xs == xs[..i] + [x] + xs[i + 1..];
    }
  }

  /** The selector is dropped exactly when it is not kept. */
  lemma SelectorMeaning(inventory: Inventory, device: string, slot: string, candidates: seq<string>)
    ensures ResolvedSelector(inventory, device, slot, candidates).0 != []
            <==> SelectorKept(inventory, device, slot, candidates)
  {
    hide BuiltIn, DeviceGroupName;
    KeepMembers(candidates, inventory, true);
    KeepMembers(candidates, inventory, false);
    var available, missing := Keep(candidates, inventory, true), Keep(candidates, inventory, false);
    assert missing != [] ==> missing[0] in missing;
    assert available != [] ==> available[0] in available;
    if inventory.Some? && missing == [] {
      forall i | 0 <= i < |candidates| ensures TargetAvailable(inventory, candidates[i]) {
        assert candidates[i] in candidates;
      }
      if candidates != [] {
        assert candidates[0] in available;
      }
    }
    if inventory.Some? && missing != [] {
      var selected := EffectiveSelection(inventory.value, DeviceGroupName(device, slot), candidates);
      assert missing[0] in candidates;
      assert selected in candidates;
      MoveToFrontMembers(available, selected);
      assert TargetAvailable(inventory, selected) ==> selected in available;
      var i :| 0 <= i < |candidates| && candidates[i] == missing[0];
      assert !TargetAvailable(inventory, candidates[i]);
    }
  }

  /** With missing targets, a selector is dropped or becomes exactly its available
      candidates, each as often as before, with the effective selection in front. */
  lemma SelectorFiltering(resolution: PolicyResolution, device: string, slot: string, candidates: seq<string>)
    ensures var inventory, group := Some(resolution), DeviceGroupName(device, slot);
            var policies := ResolvedSelector(inventory, device, slot, candidates).0;
            var allAvailable := forall i :: 0 <= i < |candidates| ==> TargetAvailable(inventory, candidates[i]);
            && (allAvailable ==> policies == candidates)
            && (!allAvailable && policies != [] ==>
                  && policies[0] == EffectiveSelection(resolution, group, candidates)
                  && forall x :: multiset(policies)[x] == if TargetAvailable(inventory, x) then
                       multiset(candidates)[x] else 0)
  {
    hide BuiltIn, DeviceGroupName, TargetAvailable, MoveToFront, Keep;
    var inventory := Some(resolution);
    KeepCounts(candidates, inventory);
    KeepMembers(candidates, inventory, true);
    KeepMembers(candidates, inventory, false);
    var available := Keep(candidates, inventory, true);
    var missing := Keep(candidates, inventory, false);
    var selected := EffectiveSelection(resolution, DeviceGroupName(device, slot), candidates);
    MoveToFrontMembers(available, selected);
    assert missing != [] ==> missing[0] in missing;
    if forall i :: 0 <= i < |candidates| ==> TargetAvailable(inventory, candidates[i]) {
      KeepAll(candidates, inventory);
    }
  }

  lemma {:induction false} KeepCounts(candidates: seq<string>, inventory: Inventory)
    ensures forall x ::
      multiset(Keep(candidates, inventory, true))[x] == if TargetAvailable(inventory, x) then multiset(candidates)[x]
      else 0
  {
    hide TargetAvailable;
    if candidates != [] {
      var n := |candidates| - 1;
      KeepCounts(candidates[..n], inventory);
      assert candidates == candidates[..n] + [candidates[n]];
    }
  }

  lemma {:induction false} KeepAll(candidates: seq<string>, inventory: Inventory)
    requires forall i :: 0 <= i < |candidates| ==> TargetAvailable(inventory, candidates[i])
    ensures Keep(candidates, inventory, true) == candidates && Keep(candidates, inventory, false) == []
  {
    if candidates != [] {
      var n := |candidates| - 1;
      KeepAll(candidates[..n], inventory);
      assert TargetAvailable(inventory, candidates[n]);
      assert candidates == candidates[..n] + [candidates[n]];
    }
  }

  // ---- One rule ----

  /** The rules of all variants decide like the match itself. */
  lemma {:induction false} VariantRulesMeaning(address: nat, variants: Variants, target: string, reject: bool,
      packet: Packet)
    ensures FirstMatch(AllVariantRules(address, variants, target, reject), packet)
      == if packet.source != address || !SomeVariantHolds(variants, packet) then None
         else if Carries(target, packet) then Some(target)
         else if reject then Some("REJECT")
         else None
  {
    if variants != [] {
      var n := |variants| - 1;
      var last := variants[n];
      VariantRulesMeaning(address, variants[..n], target, reject, packet);
      FirstMatchConcat(AllVariantRules(address, variants[..n], target, reject),
        VariantRules(address, last, target, reject), packet);
      SomeVariantOfConcat(variants[..n], [last], packet);
      assert variants == variants[..n] + [last];
      assert SomeVariantHolds([last], packet) <==> AllHold([last][0], packet);
      OneVariantMeaning(address, last, target, reject, packet);
    }
  }

  lemma OneVariantMeaning(address: nat, variant: seq<Condition>, target: string, reject: bool, packet: Packet)
    ensures FirstMatch(VariantRules(address, variant, target, reject), packet)
      == if packet.source != address || !AllHold(variant, packet) then None
         else if Carries(target, packet) then Some(target)
         else if reject then Some("REJECT")
         else None
  {
    var payloads := [SourceIP(address)] + variant;
    assert payloads[0] == SourceIP(address) && forall i :: 0 <= i < |variant| ==> payloads[i + 1] == variant[i];
    assert AllHold(payloads, packet) <==> packet.source == address && AllHold(variant, packet) by {
      if AllHold(payloads, packet) {
        assert Holds(payloads[0], packet);
        forall i | 0 <= i < |variant| ensures Holds(variant[i], packet) {
          assert Holds(payloads[i + 1], packet);
        }
      }
    }
    RejectIsBuiltIn();
    var second := if reject && !BuiltIn(target) then [FlatRule(payloads, "REJECT")] else [];
    FirstMatchPair(FlatRule(payloads, target), second, packet);
    if second != [] {
      FirstMatchPair(second[0], [], packet);
      assert second == [second[0]] + [];
    }
  }

  lemma RejectIsBuiltIn()
    ensures BuiltIn("REJECT")
  {
    assert Upper("REJECT") == "REJECT";
  }

  lemma RuleMeaning(device: string, address: nat, rule: Rule, profileUnsupported: string,
                    templates: map<string, Template>, inventory: Inventory, packet: Packet)
    requires CompiledRule(device, address, rule, profileUnsupported, templates, inventory).Success?
    requires rule.when.template != "" ==> rule.when.template in templates
    ensures FirstMatch(CompiledRule(device, address, rule, profileUnsupported, templates,
                                    inventory).value.overrideRules, packet)
         == if packet.source != address then None
            else RuleDecision(device, rule, profileUnsupported, templates, inventory, packet)
  {
    hide ExpandedVariants, ResolvedSelector, SelectorKept, MatchHolds, TargetAvailable, DeviceGroupName;
    SelectorMeaning(inventory, device, rule.id, rule.policies);
    var (_, target) := RuleTarget(device, rule, inventory);
    if target.Some? {
      var expansion := ExpandedMatch(rule.when, templates).value;
      var reject := ResolveUnsupported(rule.onUnsupported, profileUnsupported) == "reject";
      VariantRulesMeaning(address, expansion.variants, target.value, reject, packet);
      ExpansionMeaning(rule.when, templates, packet);
    }
  }

  lemma {:induction false} RulesDecisionSnoc(device: string, rules: seq<Rule>, last: Rule, profileUnsupported: string,
                                             templates: map<string, Template>, inventory: Inventory, packet: Packet)
    requires TemplatesKnown(rules + [last], templates)
    ensures TemplatesKnown(rules, templates) && (last.when.template != "" ==> last.when.template in templates)
    ensures RulesDecision(device, rules + [last], profileUnsupported, templates, inventory, packet)
         == var before := RulesDecision(device, rules, profileUnsupported, templates, inventory, packet);
            if before.Some? then before
            else RuleDecision(device, last, profileUnsupported, templates, inventory, packet)
  {
    hide RuleDecision;
    assert (rules + [last])[|rules|] == last;
    assert forall i :: 0 <= i < |rules| ==> (rules + [last])[i] == rules[i];
    if rules != [] {
      assert (rules + [last])[0] == rules[0] && (rules + [last])[1..] == rules[1..] + [last];
      RulesDecisionSnoc(device, rules[1..], last, profileUnsupported, templates, inventory, packet);
    } else {
      assert (rules + [last])[1..] == [];
    }
  }

  /** The override rules of one device interpret its rule list. */
  lemma {:induction false} RulesMeaning(device: string, address: nat, rules: seq<Rule>, profileUnsupported: string,
                                        templates: map<string, Template>, inventory: Inventory, packet: Packet)
    requires CompiledRules(device, address, rules, profileUnsupported, templates, inventory).Success?
    requires TemplatesKnown(rules, templates)
    ensures FirstMatch(CompiledRules(device, address, rules, profileUnsupported, templates,
                                     inventory).value.overrideRules, packet)
         == if packet.source != address then None
            else RulesDecision(device, rules, profileUnsupported, templates, inventory, packet)
  {
    hide CompiledRule, RuleDecision;
    if rules != [] {
      var n := |rules| - 1;
      assert rules == rules[..n] + [rules[n]];
      RulesDecisionSnoc(device, rules[..n], rules[n], profileUnsupported, templates, inventory, packet);
      RulesMeaning(device, address, rules[..n], profileUnsupported, templates, inventory, packet);
      RuleMeaning(device, address, rules[n], profileUnsupported, templates, inventory, packet);
      FirstMatchConcat(
        CompiledRules(device, address, rules[..n], profileUnsupported, templates, inventory).value.overrideRules,
        CompiledRule(device, address, rules[n], profileUnsupported, templates, inventory).value.overrideRules, packet);
    }
  }

  /** The catch-all pair of a device decides every packet from its address. */
  lemma CatchAllMeaning(address: nat, device: string, profileUnsupported: string, packet: Packet)
    ensures FirstMatch(CatchAll(address, device, profileUnsupported), packet)
      == if packet.source != address then None
         else if Carries(DeviceGroupName(device, "default"), packet) then Some(DeviceGroupName(device, "default"))
         else if ResolveUnsupported("", profileUnsupported) == "reject" then Some("REJECT")
         else None
  {
    hide DeviceGroupName;
    RejectIsBuiltIn();
    var reject := ResolveUnsupported("", profileUnsupported) == "reject";
    var second := if reject then [FlatRule([SourceIP(address)], "REJECT")] else [];
    FirstMatchPair(FlatRule([SourceIP(address)], DeviceGroupName(device, "default")), second, packet);
    assert AllHold([SourceIP(address)], packet) <==> packet.source == address by {
      assert AllHold([SourceIP(address)], packet) ==> Holds([SourceIP(address)][0], packet);
    }
    if reject {
      FirstMatchPair(second[0], [], packet);
      assert second == [second[0]] + [];
    }
  }
}
