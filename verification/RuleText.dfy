/** Flat rules as lines of text (`composeRule`): no two compiled rules share a line, so the
    text says no less than the rule. */
module RuleText {
  import opened Text
  import opened PolicyModel
  import opened PolicyCompiler
  import ConfigText
  import PolicyTheorems

  const ADDRESSES := 0x1_0000_0000

  function DottedQuad(address: nat): string {
    Join([ConfigText.DecimalDigits(address / 0x100_0000 % 256), ConfigText.DecimalDigits(address / 0x1_0000 % 256),
          ConfigText.DecimalDigits(address / 256 % 256), ConfigText.DecimalDigits(address % 256)], '.')
  }

  function Keyword(condition: Condition): string {
    match condition
    case SourceIP(_) => "SRC-IP-CIDR"
    case DomainSuffix(_) => "DOMAIN-SUFFIX"
    case IPCidr(_) => "IP-CIDR"
    case Network(_) => "NETWORK"
    case DstPort(_) => "DST-PORT"
    case InRuleSet(_) => "RULE-SET"
  }

  function Argument(condition: Condition): string {
    match condition
    case SourceIP(address) => DottedQuad(address) + "/32"
    case DomainSuffix(domain) => domain
    case IPCidr(cidr) => cidr
    case Network(protocol) => protocol
    case DstPort(port) => port
    case InRuleSet(provider) => provider
  }

  function Payload(condition: Condition): string {
    Keyword(condition) + [','] + Argument(condition)
  }

  function Payloads(conditions: seq<Condition>): (r: seq<string>)
    ensures |r| == |conditions|
    ensures forall i :: 0 <= i < |conditions| ==> r[i] == Payload(conditions[i])
  {
    seq(|conditions|, i requires 0 <= i < |conditions| => Payload(conditions[i]))
  }

  function Wrapped(payloads: seq<string>): (r: seq<string>)
    ensures |r| == |payloads|
    ensures forall i :: 0 <= i < |payloads| ==> r[i] == "(" + payloads[i] + ")"
  {
    seq(|payloads|, i requires 0 <= i < |payloads| => "(" + payloads[i] + ")")
  }

  function Composed(payloads: seq<string>, action: string): string {
    if |payloads| == 1 then payloads[0] + [','] + action
    else "AND," + ("(" + Join(Wrapped(payloads), ',') + ")") + [','] + action
  }

  method ComposeRule(payloads: seq<string>, action: string) returns (text: string)
    ensures text == Composed(payloads, action)
  {
    if |payloads| == 1 {
      return payloads[0] + "," + action;
    }
    var wrapped: seq<string> := [];
    for i := 0 to |payloads|
      invariant wrapped == Wrapped(payloads)[..i]
    {
      wrapped := wrapped + ["(" + payloads[i] + ")"];
    }
    assert wrapped == Wrapped(payloads);
    return "AND," + ("(" + Join(wrapped, ',') + ")") + "," + action;
  }

  function Line(rule: FlatRule): string {
    Composed(Payloads(rule.payloads), rule.target)
  }

  /** Texts free of commas, and addresses of 32 bits. */
  predicate Writable(condition: Condition) {
    ',' !in Argument(condition) && (condition.SourceIP? ==> condition.address < ADDRESSES)
  }

  predicate WritableRule(rule: FlatRule) {
    && rule.payloads != [] && ',' !in rule.target
    && forall i :: 0 <= i < |rule.payloads| ==> Writable(rule.payloads[i])
  }

  // ---- Reading a line back ----

  lemma QuadReadsBack(a: nat, b: nat)
    requires a < ADDRESSES && b < ADDRESSES
    ensures DottedQuad(a) == DottedQuad(b) ==> a == b
  {
    hide Join, Split, ConfigText.DecimalDigits;
    var p := [ConfigText.DecimalDigits(a / 0x100_0000 % 256), ConfigText.DecimalDigits(a / 0x1_0000 % 256),
              ConfigText.DecimalDigits(a / 256 % 256), ConfigText.DecimalDigits(a % 256)];
    var q := [ConfigText.DecimalDigits(b / 0x100_0000 % 256), ConfigText.DecimalDigits(b / 0x1_0000 % 256),
              ConfigText.DecimalDigits(b / 256 % 256), ConfigText.DecimalDigits(b % 256)];
    ConfigText.SplitUndoesJoin(p, '.');
    ConfigText.SplitUndoesJoin(q, '.');
    if DottedQuad(a) == DottedQuad(b) {
      assert p == q;
      SameDigits(a / 0x100_0000 % 256, b / 0x100_0000 % 256, p[0], q[0]);
      SameDigits(a / 0x1_0000 % 256, b / 0x1_0000 % 256, p[1], q[1]);
      SameDigits(a / 256 % 256, b / 256 % 256, p[2], q[2]);
      SameDigits(a % 256, b % 256, p[3], q[3]);
      QuadsAgree(a, b);
    }
  }

  lemma SameDigits(m: nat, n: nat, p: string, q: string)
    requires p == ConfigText.DecimalDigits(m) && q == ConfigText.DecimalDigits(n) && p == q
    ensures m == n
  {
    ConfigText.DigitsReadBack(m);
    ConfigText.DigitsReadBack(n);
  }

  lemma QuadsAgree(a: nat, b: nat)
    requires a < ADDRESSES && b < ADDRESSES
    requires a / 0x100_0000 % 256 == b / 0x100_0000 % 256 && a / 0x1_0000 % 256 == b / 0x1_0000 % 256
    requires a / 256 % 256 == b / 256 % 256 && a % 256 == b % 256
    ensures a == b
  {
    QuadSum(a);
    QuadSum(b);
  }

  lemma QuadSum(a: nat)
    requires a < ADDRESSES
    ensures a == a / 0x100_0000 % 256 * 0x100_0000 + a / 0x1_0000 % 256 * 0x1_0000 + a / 256 % 256 * 256 + a % 256
  {
    assert a / 0x1_0000 == a / 256 / 256 && a / 0x100_0000 == a / 256 / 256 / 256;
  }

  /** A separator that the second part does not have is found again from the end. */
  lemma LastSeparator(a: string, b: string, c: string, d: string, sep: char)
    requires a + [sep] + b == c + [sep] + d && sep !in b && sep !in d
    ensures a == c && b == d
  {
    var s, t := a + [sep] + b, c + [sep] + d;
    assert forall i :: |a| < i < |s| ==> s[i] in b;
    assert forall i :: |c| < i < |t| ==> t[i] in d;
    assert s[|a|] == sep && t[|c|] == sep;
    assert a == s[..|a|] && c == t[..|c|];
    assert b == s[|a| + 1..] && d == t[|c| + 1..];
  }

  /** The first separator, likewise. */
  lemma FirstSeparator(a: string, b: string, c: string, d: string, sep: char)
    requires a + [sep] + b == c + [sep] + d && sep !in a && sep !in c
    ensures a == c && b == d
  {
    IndexOfFirst(a, b, sep);
    IndexOfFirst(c, d, sep);
    assert b == (a + [sep] + b)[|a| + 1..] && d == (c + [sep] + d)[|c| + 1..];
    assert a == (a + [sep] + b)[..|a|] && c == (c + [sep] + d)[..|c|];
  }

  lemma SameCondition(a: Condition, b: Condition)
    requires Writable(a) && Writable(b) && Payload(a) == Payload(b)
    ensures a == b
  {
    FirstSeparator(Keyword(a), Argument(a), Keyword(b), Argument(b), ',');
    if a.SourceIP? {
      var p, q := DottedQuad(a.address), DottedQuad(b.address);
      assert p == (p + "/32")[..|p|] && q == (q + "/32")[..|q|];
      QuadReadsBack(a.address, b.address);
    }
  }

  /** The pieces of a wrapped payload between commas. */
  function Pieces(conditions: seq<Condition>): seq<string> {
    if conditions == [] then []
    else ["(" + Keyword(conditions[0]), Argument(conditions[0]) + ")"] + Pieces(conditions[1..])
  }

  lemma {:induction false} JoinedPieces(conditions: seq<Condition>)
    ensures Join(Wrapped(Payloads(conditions)), ',') == Join(Pieces(conditions), ',')
  {
    hide Keyword, Argument;
    if conditions != [] {
      var wrapped := Wrapped(Payloads(conditions));
      var rest := Wrapped(Payloads(conditions[1..]));
      assert wrapped[1..] == rest;
      JoinedPieces(conditions[1..]);
      var k, v := "(" + Keyword(conditions[0]), Argument(conditions[0]) + ")";
      assert wrapped[0] == k + [','] + v;
      var pieces := Pieces(conditions);
      assert pieces[0] == k && pieces[1..][0] == v && pieces[1..][1..] == Pieces(conditions[1..]);
      PiecesCount(conditions[1..]);
    }
  }

  lemma {:induction false} PiecesCount(conditions: seq<Condition>)
    ensures |Pieces(conditions)| == 2 * |conditions|
  {
    if conditions != [] {
      PiecesCount(conditions[1..]);
    }
  }

  lemma KeywordExcludes(condition: Condition)
    ensures ',' !in Keyword(condition)
  {
  }

  lemma {:induction false} PiecesExclude(conditions: seq<Condition>)
    requires forall i :: 0 <= i < |conditions| ==> Writable(conditions[i])
    ensures forall i :: 0 <= i < |Pieces(conditions)| ==> ',' !in Pieces(conditions)[i]
  {
    hide Keyword, Argument;
    if conditions != [] {
      KeywordExcludes(conditions[0]);
      PiecesExclude(conditions[1..]);
    }
  }

  lemma {:induction false} SamePieces(a: seq<Condition>, b: seq<Condition>)
    requires forall i :: 0 <= i < |a| ==> Writable(a[i])
    requires forall i :: 0 <= i < |b| ==> Writable(b[i])
    requires Pieces(a) == Pieces(b)
    ensures a == b
  {
    hide Keyword, Argument, Writable;
    PiecesCount(a);
    PiecesCount(b);
    if a != [] {
      var p, q := Pieces(a), Pieces(b);
      assert p[0] == "(" + Keyword(a[0]) && p[1] == Argument(a[0]) + ")" && p[2..] == Pieces(a[1..]);
      assert q[0] == "(" + Keyword(b[0]) && q[1] == Argument(b[0]) + ")" && q[2..] == Pieces(b[1..]);
      assert p[0][1..] == Keyword(a[0]) && q[0][1..] == Keyword(b[0]);
      assert p[1][..|p[1]| - 1] == Argument(a[0]) && q[1][..|q[1]| - 1] == Argument(b[0]);
      SameCondition(a[0], b[0]);
      SamePieces(a[1..], b[1..]);
      assert a == [a[0]] + a[1..] && b == [b[0]] + b[1..];
    }
  }

  lemma KeywordsHaveNoAnd(c: Condition)
    ensures Keyword(c) != "AND" && ',' !in Keyword(c)
  {
  }

  lemma SameConjunction(a: seq<Condition>, b: seq<Condition>)
    requires a != [] && b != []
    requires forall i :: 0 <= i < |a| ==> Writable(a[i])
    requires forall i :: 0 <= i < |b| ==> Writable(b[i])
    requires "AND," + ("(" + Join(Wrapped(Payloads(a)), ',') + ")")
             == "AND," + ("(" + Join(Wrapped(Payloads(b)), ',') + ")")
    ensures a == b
  {
    hide Writable, Join, Split, Pieces;
    var v, w := Join(Wrapped(Payloads(a)), ','), Join(Wrapped(Payloads(b)), ',');
    var s, t := "AND," + ("(" + v + ")"), "AND," + ("(" + w + ")");
    assert v == s[5..|s| - 1] && w == t[5..|t| - 1];
    JoinedPieces(a);
    JoinedPieces(b);
    PiecesExclude(a);
    PiecesExclude(b);
    PiecesCount(a);
    PiecesCount(b);
    ConfigText.SplitUndoesJoin(Pieces(a), ',');
    ConfigText.SplitUndoesJoin(Pieces(b), ',');
    SamePieces(a, b);
  }

  /** Different rules have different lines. */
  lemma LinesAreUnambiguous(a: FlatRule, b: FlatRule)
    requires WritableRule(a) && WritableRule(b) && Line(a) == Line(b)
    ensures a == b
  {
    hide Join, Writable, Payload, Wrapped;
    LastSeparator(Front(a), a.target, Front(b), b.target, ',');
    if |a.payloads| == 1 && |b.payloads| == 1 {
      SameCondition(a.payloads[0], b.payloads[0]);
    } else if |a.payloads| == 1 {
      NotAConjunction(a.payloads[0], b);
    } else if |b.payloads| == 1 {
      NotAConjunction(b.payloads[0], a);
    } else {
      SameConjunction(a.payloads, b.payloads);
    }
  }

  /** What stands before the target. */
  function Front(rule: FlatRule): (front: string)
    requires rule.payloads != []
    ensures Line(rule) == front + [','] + rule.target
  {
    if |rule.payloads| == 1 then Payload(rule.payloads[0])
    else "AND," + ("(" + Join(Wrapped(Payloads(rule.payloads)), ',') + ")")
  }

  lemma NotAConjunction(c: Condition, rule: FlatRule)
    requires rule.payloads != [] && |rule.payloads| != 1
    ensures Payload(c) != Front(rule)
  {
    hide Join, Wrapped, Argument;
    KeywordsHaveNoAnd(c);
    var rest := "(" + Join(Wrapped(Payloads(rule.payloads)), ',') + ")";
    assert Front(rule) == "AND" + [','] + rest;
    if Payload(c) == Front(rule) {
      FirstSeparator(Keyword(c), Argument(c), "AND", rest, ',');
    }
  }

  // ---- Compiled rules are writable ----

  predicate AllWritable(variants: Variants) {
    forall i, j :: 0 <= i < |variants| && 0 <= j < |variants[i]| ==> Writable(variants[i][j])
  }

  predicate ConditionsWritable(conditions: seq<Condition>) {
    forall i :: 0 <= i < |conditions| ==> Writable(conditions[i])
  }

  lemma {:induction false} CrossWritable(existing: Variants, conditions: seq<Condition>)
    requires AllWritable(existing) && ConditionsWritable(conditions)
    ensures AllWritable(Cross(existing, conditions))
  {
    hide Writable;
    if existing != [] {
      CrossWritable(existing[..|existing| - 1], conditions);
    }
  }

  lemma DimensionWritable(existing: Variants, conditions: seq<Condition>)
    requires AllWritable(existing) && ConditionsWritable(conditions)
    ensures AllWritable(WithDimension(existing, conditions))
  {
    hide AllWritable, ConditionsWritable;
    if conditions != [] {
      CrossWritable(existing, conditions);
    }
  }

  /** No CIDR text that the parser accepts has a comma. */
  ghost predicate PlainCidrs(parsers: Parsers) {
    forall cidr :: parsers.cidrOk(cidr) ==> ',' !in cidr
  }

  lemma LowerHasNoComma(s: string)
    requires ',' !in s
    ensures ',' !in Lower(s)
  {
    forall i | 0 <= i < |s| ensures Lower(s)[i] != ',' {
      assert s[i] in s;
    }
  }

  lemma PortHasNoComma(port: string)
    requires ValidPortRange(port)
    ensures ',' !in port
  {
    hide Atoi, IndexOf;
    var parts := Split(port, '-');
    ConfigText.SplitPartsExclude(port, '-');
    AtoiHasNoComma(parts[0]);
    var i := IndexOf(port, '-');
    if |parts| == 2 {
      AtoiHasNoComma(parts[1]);
      assert i < |port|;
      SplitTwo(port, '-');
    } else {
      SplitOne(port, '-');
    }
  }

  lemma SplitOne(s: string, sep: char)
    requires |Split(s, sep)| == 1
    ensures s == Split(s, sep)[0]
  {
  }

  lemma SplitTwo(s: string, sep: char)
    requires |Split(s, sep)| == 2
    ensures s == Split(s, sep)[0] + [sep] + Split(s, sep)[1]
  {
    var i := IndexOf(s, sep);
    SplitOne(s[i + 1..], sep);
  }

  lemma AtoiHasNoComma(s: string)
    requires Atoi(s).Some?
    ensures ',' !in s
  {
    var digits := if s != [] && (s[0] == '-' || s[0] == '+') then s[1..] else s;
    assert AllDigits(digits);
    assert s == digits || s == [s[0]] + digits;
  }

  /** The expansion of a valid match has no commas in it. */
  lemma ExpansionWritable(when: RuleMatch, ruleSets: set<string>, templates: map<string, Template>, parsers: Parsers)
    requires ValidMatch(when, ruleSets, templates, parsers) && PlainCidrs(parsers)
    requires forall id :: id in ruleSets ==> ValidID(id)
    requires forall id :: id in templates ==> Elements(templates[id].ruleSets) <= ruleSets
    ensures ExpandedMatch(when, templates).Success?
    ensures AllWritable(ExpandedMatch(when, templates).value.variants)
  {
    hide Writable, WithDimension, CombinationCount, ValidDomain, ValidPortRange;
    PolicyTheorems.ValidMatchExpands(when, ruleSets, templates, parsers);
    var e := Expanded(when, templates);
    assert forall i :: 0 <= i < |e.ruleSets| ==> e.ruleSets[i] in ruleSets by {
      if when.template != "" {
        assert forall i :: 0 <= i < |e.ruleSets| ==> e.ruleSets[i] in Elements(templates[when.template].ruleSets);
      }
    }
    MatchConditionsWritable(e, ruleSets, parsers);
    var v: Variants := [[]];
    DimensionWritable(v, DomainConditions(e.domains));
    v := WithDimension(v, DomainConditions(e.domains));
    DimensionWritable(v, CidrConditions(e.ipCidrs));
    v := WithDimension(v, CidrConditions(e.ipCidrs));
    DimensionWritable(v, ProtocolConditions(e.protocols));
    v := WithDimension(v, ProtocolConditions(e.protocols));
    DimensionWritable(v, PortConditions(e.ports));
    v := WithDimension(v, PortConditions(e.ports));
    DimensionWritable(v, RuleSetConditions(e.ruleSets));
  }

  lemma MatchConditionsWritable(e: RuleMatch, ruleSets: set<string>, parsers: Parsers)
    requires PlainCidrs(parsers) && forall id :: id in ruleSets ==> ValidID(id)
    requires forall i :: 0 <= i < |e.domains| ==> ValidDomain(e.domains[i])
    requires forall i :: 0 <= i < |e.ipCidrs| ==> parsers.cidrOk(e.ipCidrs[i])
    requires forall i :: 0 <= i < |e.protocols| ==> Lower(e.protocols[i]) in {"tcp", "udp"}
    requires forall i :: 0 <= i < |e.ports| ==> ValidPortRange(e.ports[i])
    requires forall i :: 0 <= i < |e.ruleSets| ==> e.ruleSets[i] in ruleSets
    ensures ConditionsWritable(DomainConditions(e.domains)) && ConditionsWritable(CidrConditions(e.ipCidrs))
    ensures ConditionsWritable(ProtocolConditions(e.protocols)) && ConditionsWritable(PortConditions(e.ports))
    ensures ConditionsWritable(RuleSetConditions(e.ruleSets))
  {
    hide ValidPortRange, ValidID, Trim, Lower;
    forall i | 0 <= i < |e.domains| ensures Writable(DomainConditions(e.domains)[i]) {
      assert ValidDomain(e.domains[i]);
      LowerHasNoComma(e.domains[i]);
    }
    forall i | 0 <= i < |e.ports| ensures Writable(PortConditions(e.ports)[i]) {
      PortHasNoComma(e.ports[i]);
    }
    forall i | 0 <= i < |e.ruleSets| ensures Writable(RuleSetConditions(e.ruleSets)[i]) {
      IDHasNoComma(e.ruleSets[i]);
    }
    forall i | 0 <= i < |e.protocols| ensures Writable(ProtocolConditions(e.protocols)[i]) {
    }
  }

  lemma IDHasNoComma(id: string)
    requires ValidID(id)
    ensures ',' !in id && ',' !in RuleSetProviderName(id)
  {
  }

  predicate AllRulesWritable(rules: seq<FlatRule>) {
    forall i :: 0 <= i < |rules| ==> WritableRule(rules[i])
  }

  lemma {:induction false} VariantRulesWritable(address: nat, variants: Variants, target: string, reject: bool)
    requires AllWritable(variants) && ',' !in target && Writable(SourceIP(address))
    ensures AllRulesWritable(AllVariantRules(address, variants, target, reject))
  {
    hide Writable, BuiltIn;
    if variants != [] {
      VariantRulesWritable(address, variants[..|variants| - 1], target, reject);
    }
  }

  lemma AddressIsWritable(address: nat)
    requires address < ADDRESSES
    ensures Writable(SourceIP(address))
  {
    hide ConfigText.DecimalDigits;
    var parts := [ConfigText.DecimalDigits(address / 0x100_0000 % 256),
                  ConfigText.DecimalDigits(address / 0x1_0000 % 256),
                  ConfigText.DecimalDigits(address / 256 % 256), ConfigText.DecimalDigits(address % 256)];
    forall i | 0 <= i < 4 ensures ',' !in parts[i] {
    }
    JoinExcludes(parts);
  }

  lemma {:induction false} JoinExcludes(parts: seq<string>)
    requires forall i :: 0 <= i < |parts| ==> ',' !in parts[i]
    ensures ',' !in Join(parts, '.')
  {
    if |parts| > 1 {
      JoinExcludes(parts[1..]);
    }
  }

  /** The override rules of a device with valid rules are writable, so their lines are unambiguous. */
  lemma {:induction false} RulesWritable(device: string, address: nat, rules: seq<Rule>, profileUnsupported: string,
      ruleSets: set<string>,
                                         templates: map<string, Template>, parsers: Parsers, inventory: Inventory)
    requires ValidID(device) && address < ADDRESSES && PlainCidrs(parsers)
    requires ValidRules(rules, ruleSets, templates, parsers)
    requires forall id :: id in ruleSets ==> ValidID(id)
    requires forall id :: id in templates ==> Elements(templates[id].ruleSets) <= ruleSets
    ensures var compiled := CompiledRules(device, address, rules, profileUnsupported, templates, inventory);
            compiled.Success? && AllRulesWritable(compiled.value.overrideRules)
  {
    hide CompiledRule, ValidRule, WritableRule;
    if rules != [] {
      var n := |rules| - 1;
      assert ValidRule(rules[n], ruleSets, templates, parsers);
      RulesWritable(device, address, rules[..n], profileUnsupported, ruleSets, templates, parsers, inventory);
      RuleWritable(device, address, rules[n], profileUnsupported, ruleSets, templates, parsers, inventory);
    }
  }

  lemma RuleWritable(device: string, address: nat, rule: Rule, profileUnsupported: string, ruleSets: set<string>,
                     templates: map<string, Template>, parsers: Parsers, inventory: Inventory)
    requires ValidID(device) && address < ADDRESSES && PlainCidrs(parsers)
             && ValidRule(rule, ruleSets, templates, parsers)
    requires forall id :: id in ruleSets ==> ValidID(id)
    requires forall id :: id in templates ==> Elements(templates[id].ruleSets) <= ruleSets
    ensures var compiled := CompiledRule(device, address, rule, profileUnsupported, templates, inventory);
            compiled.Success? && AllRulesWritable(compiled.value.overrideRules)
  {
    hide ValidMatch, ExpandedMatch, ResolvedSelector, AllVariantRules, TargetAvailable, ValidID, ValidPolicyList,
      WritableRule, Trim, DeviceGroupName, Writable;
    ExpansionWritable(rule.when, ruleSets, templates, parsers);
    AddressIsWritable(address);
    var (_, target) := RuleTarget(device, rule, inventory);
    if target.Some? {
      GroupHasNoComma(device, rule.id);
      VariantRulesWritable(address, ExpandedMatch(rule.when, templates).value.variants, target.value,
        ResolveUnsupported(rule.onUnsupported, profileUnsupported) == "reject");
    }
  }

  lemma GroupHasNoComma(device: string, slot: string)
    requires ValidID(device) && ValidID(slot)
    ensures ',' !in DeviceGroupName(device, slot)
  {
    IDHasNoComma(device);
    IDHasNoComma(slot);
  }
}
