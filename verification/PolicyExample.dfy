/** A document that validation lets through although one match of it has 2^65 variants. */
module PolicyExample {
  import opened Text
  import opened PolicyModel
  import PolicyCompiler
  import PolicyTheorems

  const LENGTH := 8192

  /** Five lists of 8192 values each: the count of combinations wraps to zero. */
  const HUGE := RuleMatch(
    seq(LENGTH, _ => "example"), seq(LENGTH, _ => "10.0.0.0/8"), seq(LENGTH, _ => "tcp"), seq(LENGTH, _ => "80"),
    seq(LENGTH, _ => "s"), "")

  const RULE := Rule("r", HUGE, "DIRECT", [], "")
  const PROFILE := Profile("p", "", ["DIRECT"], "", [RULE])
  const RULE_SET := RuleSet("s", "inline", "domain", "yaml", "", 0, ["example"])
  const DEVICE := ManagedDevice("d", "", NoMac, IPv4(1), "p", "", "", "")

  /** One device whose profile has the one rule. */
  const POLICY := PolicySet([DEVICE], [PROFILE], [RULE_SET], [])

  lemma TextsAreValid()
    ensures ValidDomain("example") && ValidPolicy("DIRECT") && Lower("tcp") == "tcp"
    ensures ValidID("r") && ValidID("p") && ValidID("s") && ValidID("d") && "r" != "default"
  {
    TrimmedIsFixed("example");
    TrimmedIsFixed("DIRECT");
  }

  lemma PortIsValid()
    ensures ValidPortRange("80")
  {
    SplitWithout("80", '-');
    assert "80"[..1] == "8" && "8"[..0] == "";
    assert DigitsValue("8") == 8 && DigitsValue("80") == 80;
  }

  lemma HugeIsValid(parsers: Parsers)
    requires parsers.cidrOk("10.0.0.0/8")
    ensures ValidMatch(HUGE, {"s"}, map[], parsers)
    ensures |PolicyCompiler.ExpandedVariants(HUGE)| == 0x2_0000_0000_0000_0000
  {
    hide ValidDomain, ValidPortRange, Lower, CombinationCount, PolicyCompiler.ExpandedVariants;
    TextsAreValid();
    PortIsValid();
    PolicyTheorems.CombinationCountWraps(HUGE, map[]);
  }

  lemma TablesAre()
    ensures RuleSetTable([RULE_SET]).Keys == {"s"} && ProfileTable([PROFILE]).Keys == {"p"}
            && TemplateTable([]) == map[]
  {
    hide HUGE;
    assert [RULE_SET][..0] == [] && [PROFILE][..0] == [];
    assert Table([RULE_SET], RuleSetID) == map["s" := RULE_SET];
    assert Table([PROFILE], ProfileID) == map["p" := PROFILE];
  }

  lemma ProfileIsValid(parsers: Parsers)
    requires parsers.cidrOk("10.0.0.0/8")
    ensures ValidProfile(PROFILE, {"s"}, map[], parsers)
  {
    hide ValidMatch, ValidPolicy, ValidID, HUGE;
    TextsAreValid();
    HugeIsValid(parsers);
    assert ValidRule(RULE, {"s"}, map[], parsers);
  }

  lemma DeviceIsValid()
    ensures ValidDevices([DEVICE], {"p"})
  {
  }

  /** The whole document is valid, and its device's only rule stands for 2^65 rules. */
  lemma HugePolicyIsValid(parsers: Parsers)
    requires parsers.cidrOk("10.0.0.0/8")
    ensures ValidPolicySet(POLICY, parsers)
    ensures |PolicyCompiler.ExpandedVariants(POLICY.profiles[0].rules[0].when)| == 0x2_0000_0000_0000_0000
  {
    hide ValidID, ValidProfile, ValidDevices, ValidRuleSet, Table, PolicyCompiler.ExpandedVariants, HUGE, RULE_SET,
      DEVICE;
    TextsAreValid();
    TablesAre();
    HugeIsValid(parsers);
    ProfileIsValid(parsers);
    DeviceIsValid();
    RuleSetIsValid(parsers);
  }

  lemma RuleSetIsValid(parsers: Parsers)
    ensures ValidRuleSet(RULE_SET, parsers)
  {
    TrimmedIsFixed("inline");
    TrimmedIsFixed("domain");
    TrimmedIsFixed("yaml");
    assert Lower("inline") == "inline" && Lower("domain") == "domain" && Lower("yaml") == "yaml";
  }
}
