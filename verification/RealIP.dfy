/** Planning which domains a fake-IP filter must leave real (`filter.go`), and
    why the patched filter decides exactly those domains differently. */
module RealIP {
  import opened Text

  /** `normalizeDomain`: a single trailing dot is dropped. */
  function Normalize(value: string): string {
    var lowered := Lower(Trim(value));
    if HasSuffix(lowered, ".") then lowered[..|lowered| - 1] else lowered
  }

  /** What `validateTarget` demands of a target's domain. */
  predicate ValidDomain(domain: string) {
    var labels := Split(domain, '.');
    domain != "" && |domain| <= 253 && |labels| >= 2 && ValidLabels(labels)
  }

  predicate ValidLabels(labels: seq<string>) {
    forall i :: 0 <= i < |labels| ==> ValidLabel(labels[i])
  }

  predicate ValidLabel(part: string) {
    && part != "" && |part| <= 63 && part[0] != '-' && part[|part| - 1] != '-'
    && forall i :: 0 <= i < |part| ==> LabelChar(part[i])
  }

  predicate LabelChar(c: char) {
    'a' <= c <= 'z' || '0' <= c <= '9' || c == '-'
  }

  // ---- Matching ----

  function FilterPatternMatches(entry: string, domain: string): bool {
    var pattern := Lower(Trim(entry));
    if pattern == "" then false
    else if ',' in pattern then RuleMatch(pattern, domain).matched
    else if "+." <= pattern then domain == pattern[2..] || HasSuffix(domain, "." + pattern[2..])
    else if "*." <= pattern then OneLabelUnder(domain, pattern[2..])
    else if "." <= pattern then domain == pattern[1..] || HasSuffix(domain, "." + pattern[1..])
    else domain == Normalize(pattern)
  }

  /** `domain` is one label followed by `.base`. */
  predicate OneLabelUnder(domain: string, base: string) {
    && HasSuffix(domain, "." + base)
    && var prefix := domain[..|domain| - |base| - 1];
       prefix != "" && '.' !in prefix
  }

  datatype Match = Match(action: string, matched: bool)

  /** `parseRuleMatch` on a lower-case entry. */
  function RuleMatch(entry: string, domain: string): Match {
    var parts := Split(entry, ',');
    if |parts| < 2 then Match("", false)
    else
      var kind := Upper(Trim(parts[0]));
      var name := Normalize(domain);
      var action := if |parts| >= 3 then Lower(Trim(parts[|parts| - 1])) else "";
      if kind == "MATCH" then Match(if |parts| == 2 then Lower(Trim(parts[1])) else action, true)
      else if kind == "DOMAIN" then Match(action, Normalize(parts[1]) == name)
      else if kind == "DOMAIN-SUFFIX" then
        Match(action, name == Normalize(parts[1]) || HasSuffix(name, "." + Normalize(parts[1])))
      else if kind == "DOMAIN-KEYWORD" then Match(action, Contains(name, Lower(Trim(parts[1]))))
      else Match("", false)
  }

  /** The first entry, trimmed, that matches. */
  function FirstEntry(filter: seq<string>, domain: string): Option<string> {
    if filter == [] then None
    else if FilterPatternMatches(filter[0], domain) then Some(Trim(filter[0]))
    else FirstEntry(filter[1..], domain)
  }

  /** The action and the text of the first matching rule; its matched flag says whether there is one. */
  function FirstRule(filter: seq<string>, domain: string): (r: (Match, string))
    ensures !r.0.matched ==> r == (Match("", false), "")
  {
    if filter == [] then (Match("", false), "")
    else
      var found := RuleMatch(Lower(Trim(filter[0])), domain);
      if found.matched then (found, Trim(filter[0])) else FirstRule(filter[1..], domain)
  }

  method FindEntry(filter: seq<string>, domain: string) returns (entry: Option<string>)
    ensures entry == FirstEntry(filter, domain)
  {
    for i := 0 to |filter|
      invariant FirstEntry(filter, domain) == FirstEntry(filter[i..], domain)
    {
      if FilterPatternMatches(filter[i], domain) {
        return Some(Trim(filter[i]));
      }
    }
    return None;
  }

  method FirstRuleAction(filter: seq<string>, domain: string) returns (action: string, entry: string)
    ensures action == FirstRule(filter, domain).0.action && entry == FirstRule(filter, domain).1
  {
    for i := 0 to |filter|
      invariant FirstRule(filter, domain) == FirstRule(filter[i..], domain)
    {
      var found := RuleMatch(Lower(Trim(filter[i])), domain);
      if found.matched {
        return found.action, Trim(filter[i]);
      }
    }
    return "", "";
  }

  // ---- Deciding ----

  const BLACKLIST := "blacklist"
  const WHITELIST := "whitelist"
  const RULE := "rule"
  const REAL := "real-ip"
  const FAKE := "fake-ip"

  predicate Supported(mode: string) {
    mode in {BLACKLIST, WHITELIST, RULE}
  }

  /** What the DNS server answers with for a domain. In rule mode: the first matching rule's action. */
  function Decision(mode: string, filter: seq<string>, domain: string): string
    requires Supported(mode)
  {
    if mode == RULE then FirstRule(filter, domain).0.action
    else if FirstEntry(filter, domain).Some? == (mode == BLACKLIST) then REAL
    else FAKE
  }

  // ---- Planning ----

  datatype Conflict = WhitelistEntry(entry: string) | EarlierFakeRule(entry: string) | UnsupportedMode(mode: string)

  datatype Plan = Plan(append: seq<string>, prepend: seq<string>, coveredBy: map<string, string>,
                       conflicts: map<string, Conflict>)

  const EMPTY_PLAN := Plan([], [], map[], map[])

  function RealRule(domain: string): string {
    "DOMAIN," + domain + ",real-ip"
  }

  function EffectiveMode(mode: string): string {
    var lowered := Lower(Trim(mode));
    if lowered == "" then BLACKLIST else lowered
  }

  function Planned(mode: string, existing: seq<string>, domains: seq<string>): Plan {
    if domains == [] then EMPTY_PLAN
    else
      var plan := Planned(mode, existing, domains[..|domains| - 1]);
      var domain := Normalize(domains[|domains| - 1]);
      if domain == "" then plan else Extended(plan, mode, existing, domain)
  }

  function Extended(plan: Plan, mode: string, existing: seq<string>, domain: string): Plan {
    var entry := FirstEntry(existing, domain);
    var rule := FirstRule(existing, domain);
    if mode == BLACKLIST && entry.Some? then plan.(coveredBy := plan.coveredBy[domain := entry.value])
    else if mode == BLACKLIST then if domain in plan.append then plan else plan.(append := plan.append + [domain])
    else if mode == WHITELIST && entry.Some? then
      plan.(conflicts := plan.conflicts[domain := WhitelistEntry(entry.value)])
    else if mode == WHITELIST then plan.(coveredBy := plan.coveredBy[domain := "whitelist-unmatched"])
    else if mode == RULE && rule.0.action == REAL then plan.(coveredBy := plan.coveredBy[domain := rule.1])
    else if mode == RULE && rule.0.action == FAKE then
      plan.(conflicts := plan.conflicts[domain := EarlierFakeRule(rule.1)])
    else if mode == RULE then
      if RealRule(domain) in plan.prepend then plan else plan.(prepend := plan.prepend + [RealRule(domain)])
    else plan.(conflicts := plan.conflicts[domain := UnsupportedMode(mode)])
  }

  method PlanRealIP(givenMode: string, existing: seq<string>, domains: seq<string>) returns (plan: Plan)
    ensures plan == Planned(EffectiveMode(givenMode), existing, domains)
  {
    var mode := Lower(Trim(givenMode));
    if mode == "" {
      mode := BLACKLIST;
    }
    plan := EMPTY_PLAN;
    for i := 0 to |domains|
      invariant plan == Planned(mode, existing, domains[..i])
    {
      assert domains[..i + 1][..i] == domains[..i];
      var domain := Normalize(domains[i]);
      if domain == "" {
        continue;
      }
      if mode == BLACKLIST || mode == WHITELIST {
        var entry := FindEntry(existing, domain);
        if mode == BLACKLIST && entry.Some? {
          plan := plan.(coveredBy := plan.coveredBy[domain := entry.value]);
        } else if mode == BLACKLIST {
          if domain !in plan.append {
            plan := plan.(append := plan.append + [domain]);
          }
        } else if entry.Some? {
          plan := plan.(conflicts := plan.conflicts[domain := WhitelistEntry(entry.value)]);
        } else {
          plan := plan.(coveredBy := plan.coveredBy[domain := "whitelist-unmatched"]);
        }
      } else if mode == RULE {
        var action, rule := FirstRuleAction(existing, domain);
        if action == REAL {
          plan := plan.(coveredBy := plan.coveredBy[domain := rule]);
        } else if action == FAKE {
          plan := plan.(conflicts := plan.conflicts[domain := EarlierFakeRule(rule)]);
        } else if RealRule(domain) !in plan.prepend {
          plan := plan.(prepend := plan.prepend + [RealRule(domain)]);
        }
      } else {
        plan := plan.(conflicts := plan.conflicts[domain := UnsupportedMode(mode)]);
      }
    }
    assert domains[..|domains|] == domains;
  }

  /** The filter that the plan asks for: unchanged when nothing is to be added. */
  function Patched(plan: Plan, existing: seq<string>): seq<string> {
    if plan.append == [] && plan.prepend == [] then existing
    else Deduped(plan.prepend + existing + plan.append)
  }

  /** First occurrences of the trimmed non-empty entries. */
  function Deduped(entries: seq<string>): seq<string> {
    if entries == [] then []
    else
      var before := Deduped(entries[..|entries| - 1]);
      var entry := Trim(entries[|entries| - 1]);
      if entry == "" || entry in before then before else before + [entry]
  }

  method DedupeStrings(entries: seq<string>) returns (out: seq<string>)
    ensures out == Deduped(entries)
  {
    var seen: set<string> := {};
    out := [];
    for i := 0 to |entries|
      invariant out == Deduped(entries[..i])
      invariant forall e :: e in seen <==> e in out
    {
      assert entries[..i + 1][..i] == entries[..i];
      var entry := Trim(entries[i]);
      if entry == "" || entry in seen {
        continue;
      }
      seen := seen + {entry};
      out := out + [entry];
    }
    assert entries[..|entries|] == entries;
  }

  // ---- Entries that a plan adds match one domain each ----

  /** The characters of a valid domain, and where its dots are not. */
  predicate Plain(domain: string) {
    && domain != "" && domain[0] != '.' && domain[|domain| - 1] != '.'
    && forall i :: 0 <= i < |domain| ==> LabelChar(domain[i]) || domain[i] == '.'
  }

  lemma LabelIsPlain(part: string)
    requires ValidLabel(part)
    ensures Plain(part)
  {
  }

  lemma DottedIsPlain(first: string, rest: string)
    requires Plain(first) && Plain(rest)
    ensures Plain(first + ['.'] + rest)
  {
  }

  lemma SplitStep(s: string, sep: char)
    ensures var i := IndexOf(s, sep);
            Split(s, sep) == if i == |s| then [s] else [s[..i]] + Split(s[i + 1..], sep)
  {
    hide IndexOf;
  }

  lemma ValidParts(first: string, rest: seq<string>)
    requires ValidLabels([first] + rest)
    ensures ValidLabel(first) && ValidLabels(rest)
  {
    hide ValidLabel;
    var labels := [first] + rest;
    assert labels[0] == first && forall k :: 0 <= k < |rest| ==> rest[k] == labels[k + 1];
  }

  lemma {:induction false} LabelsMakePlain(domain: string)
    requires ValidLabels(Split(domain, '.'))
    ensures Plain(domain)
    decreases |domain|
  {
    hide Split, IndexOf, ValidLabels, ValidLabel, Plain;
    var i := IndexOf(domain, '.');
    var first := domain[..i];
    SplitStep(domain, '.');
    if i < |domain| {
      var rest := domain[i + 1..];
      ValidParts(first, Split(rest, '.'));
      LabelIsPlain(first);
      LabelsMakePlain(rest);
      DottedIsPlain(first, rest);
      assert domain == first + ['.'] + rest;
    } else {
      assert [domain] + [] == [domain];
      ValidParts(domain, []);
      LabelIsPlain(domain);
    }
  }

  lemma PlainIsNormal(domain: string)
    requires Plain(domain)
    ensures Trim(domain) == domain && Lower(domain) == domain && Normalize(domain) == domain
  {
    assert forall i :: 0 <= i < |domain| ==> !IsSpace(domain[i]) && LowerChar(domain[i]) == domain[i];
    TrimmedIsFixed(domain);
    assert Lower(domain) == domain;
    assert domain[|domain| - 1..] == [domain[|domain| - 1]];
  }

  lemma ValidIsNormal(domain: string)
    requires ValidDomain(domain)
    ensures Plain(domain) && Normalize(domain) == domain
  {
    LabelsMakePlain(domain);
    PlainIsNormal(domain);
  }

  lemma PlainPatternMatches(entry: string, x: string)
    requires Plain(entry)
    ensures FilterPatternMatches(entry, x) <==> x == entry
  {
    hide Normalize, Trim, Lower, RuleMatch, OneLabelUnder, HasSuffix;
    PlainIsNormal(entry);
    assert entry[0] != '+' && entry[0] != '*' && entry[0] != '.';
    assert ',' !in entry;
  }

  lemma RealRuleMatches(domain: string, x: string)
    requires Plain(domain)
    ensures Trim(RealRule(domain)) == RealRule(domain)
    ensures RuleMatch(Lower(Trim(RealRule(domain))), x) == Match(REAL, Normalize(x) == domain)
  {
    hide Normalize, Split, Lower, Trim;
    RealRuleParts(domain);
    TrimmedIsFixed("domain");
    TrimmedIsFixed(REAL);
    assert Upper("domain") == "DOMAIN" && Lower(REAL) == REAL;
    assert Normalize(domain) == domain by {
      PlainIsNormal(domain);
    }
  }

  lemma RealRuleParts(domain: string)
    requires Plain(domain)
    ensures Trim(RealRule(domain)) == RealRule(domain)
    ensures Split(Lower(RealRule(domain)), ',') == ["domain", domain, REAL]
  {
    hide Lower, Trim, Split;
    TrimmedIsFixed(RealRule(domain));
    RealRuleLowered(domain);
    SplitAtSeparator("domain", domain + [','] + REAL, ',');
    SplitAtSeparator(domain, REAL, ',');
    SplitWithout(REAL, ',');
  }

  lemma RealRuleLowered(domain: string)
    requires Plain(domain)
    ensures Lower(RealRule(domain)) == "domain" + [','] + (domain + [','] + REAL)
  {
    PlainIsNormal(domain);
    var rule := RealRule(domain);
    var lowered := "domain" + [','] + (domain + [','] + REAL);
    assert rule == "DOMAIN," + domain + ",real-ip";
    forall i | 0 <= i < |rule| ensures LowerChar(rule[i]) == lowered[i] {
      if 7 <= i < 7 + |domain| {
        assert rule[i] == domain[i - 7] && lowered[i] == domain[i - 7];
        assert Lower(domain)[i - 7] == domain[i - 7];
      } else if i >= 7 + |domain| {
        assert rule[i] == ",real-ip"[i - 7 - |domain|] && lowered[i] == ([','] + REAL)[i - 7 - |domain|];
      } else {
        assert rule[i] == "DOMAIN,"[i] && lowered[i] == "domain,"[i];
      }
    }
  }

  // ---- What a plan contains ----

  /** Every addition of the plan is for one of its domains, and every domain that needs one has it. */
  ghost predicate PartsFit(plan: Plan, mode: string, existing: seq<string>, domains: seq<string>) {
    && (forall e :: e in plan.append ==> mode == BLACKLIST && e in domains)
    && (forall e :: e in plan.prepend ==> mode == RULE && exists d :: d in domains && e == RealRule(d))
    && (mode != BLACKLIST ==> plan.append == []) && (mode != RULE ==> plan.prepend == [])
    && (forall d :: d in domains && mode == BLACKLIST ==> FirstEntry(existing, d).Some? || d in plan.append)
    && (forall d :: d in domains && mode == RULE ==>
          FirstRule(existing, d).0.action == REAL || RealRule(d) in plan.prepend || d in plan.conflicts)
    && (forall d :: d in domains && mode == WHITELIST && FirstEntry(existing, d).Some? ==> d in plan.conflicts)
    && (!Supported(mode) ==> forall d :: d in domains ==> d in plan.conflicts)
  }

  lemma ExtendedFits(plan: Plan, mode: string, existing: seq<string>, domains: seq<string>, domain: string)
    requires PartsFit(plan, mode, existing, domains)
    ensures PartsFit(Extended(plan, mode, existing, domain), mode, existing, domains + [domain])
  {
    hide FirstEntry, FirstRule, RealRule;
  }

  lemma NothingFits(mode: string, existing: seq<string>)
    ensures PartsFit(EMPTY_PLAN, mode, existing, [])
  {
  }

  lemma {:induction false} PlannedParts(mode: string, existing: seq<string>, domains: seq<string>)
    requires forall d :: d in domains ==> Plain(d)
    ensures PartsFit(Planned(mode, existing, domains), mode, existing, domains)
  {
    hide Extended, PartsFit, Normalize;
    if domains == [] {
      NothingFits(mode, existing);
    } else {
      var before, last := domains[..|domains| - 1], domains[|domains| - 1];
      PlainIsNormal(last);
      PlannedParts(mode, existing, before);
      ExtendedFits(Planned(mode, existing, before), mode, existing, before, last);
      assert before + [last] == domains;
    }
  }

  /** Planning fails exactly when the mode is unknown, a whitelist entry covers a domain, or a rule makes it fake. */
  lemma {:induction false} ConflictsExactly(mode: string, existing: seq<string>, domains: seq<string>)
    requires forall d :: d in domains ==> Plain(d)
    ensures Planned(mode, existing, domains).conflicts.Keys ==
            set d | d in domains && (!Supported(mode) || (mode != BLACKLIST && Decision(mode, existing, d) == FAKE))
  {
    hide FilterPatternMatches, RuleMatch, FirstEntry, FirstRule, Normalize, RealRule;
    if domains != [] {
      var before, last := domains[..|domains| - 1], domains[|domains| - 1];
      PlainIsNormal(last);
      ConflictsExactly(mode, existing, before);
      assert forall d :: d in domains <==> d in before || d == last;
    }
  }

  // ---- Deduplication keeps every decision ----

  lemma {:induction false} DedupedMembers(entries: seq<string>)
    ensures forall e :: e in Deduped(entries) <==> e != "" && exists i :: 0 <= i < |entries| && Trim(entries[i]) == e
  {
    if entries != [] {
      var before := entries[..|entries| - 1];
      DedupedMembers(before);
      forall e | e in Deduped(entries) ensures exists i :: 0 <= i < |entries| && Trim(entries[i]) == e {
        if e in Deduped(before) {
          var i :| 0 <= i < |before| && Trim(before[i]) == e;
          assert Trim(entries[i]) == e;
        }
      }
      forall i | 0 <= i < |entries| && Trim(entries[i]) != "" ensures Trim(entries[i]) in Deduped(entries) {
        if i < |before| {
          assert Trim(before[i]) in Deduped(before);
        }
      }
    }
  }

  lemma {:induction false} FirstEntryExists(filter: seq<string>, x: string)
    ensures FirstEntry(filter, x).Some? <==> exists i :: 0 <= i < |filter| && FilterPatternMatches(filter[i], x)
  {
    hide FilterPatternMatches;
    if filter != [] {
      FirstEntryExists(filter[1..], x);
      forall i | 0 < i < |filter| && FilterPatternMatches(filter[i], x) ensures FirstEntry(filter, x).Some? {
        assert FilterPatternMatches(filter[1..][i - 1], x);
      }
    }
  }

  lemma TrimmedEntryMatches(entry: string, x: string)
    ensures FilterPatternMatches(Trim(entry), x) == FilterPatternMatches(entry, x)
    ensures FilterPatternMatches(entry, x) ==> Trim(entry) != ""
  {
    TrimIsTrimmed(entry);
  }

  lemma DedupedEntries(entries: seq<string>, x: string)
    ensures FirstEntry(Deduped(entries), x).Some? == FirstEntry(entries, x).Some?
  {
    hide FilterPatternMatches, Deduped;
    DedupedMembers(entries);
    FirstEntryExists(entries, x);
    FirstEntryExists(Deduped(entries), x);
    forall i | 0 <= i < |entries| && FilterPatternMatches(entries[i], x) ensures FirstEntry(Deduped(entries), x).Some? {
      TrimmedEntryMatches(entries[i], x);
      assert Trim(entries[i]) in Deduped(entries);
    }
    forall e | e in Deduped(entries) && FilterPatternMatches(e, x) ensures FirstEntry(entries, x).Some? {
      var i :| 0 <= i < |entries| && Trim(entries[i]) == e;
      TrimmedEntryMatches(entries[i], x);
    }
  }

  lemma {:induction false} FirstRuleConcat(a: seq<string>, b: seq<string>, x: string)
    ensures FirstRule(a + b, x) == if FirstRule(a, x).0.matched then FirstRule(a, x) else FirstRule(b, x)
  {
    hide RuleMatch;
    if a == [] {
      assert a + b == b;
    } else {
      assert (a + b)[1..] == a[1..] + b;
      FirstRuleConcat(a[1..], b, x);
    }
  }

  lemma {:induction false} MemberFires(filter: seq<string>, e: string, x: string)
    ensures e in filter && RuleMatch(Lower(Trim(e)), x).matched ==> FirstRule(filter, x).0.matched
  {
    hide RuleMatch;
    if filter != [] && e != filter[0] {
      MemberFires(filter[1..], e, x);
    }
  }

  lemma EmptyRuleMatchesNothing(x: string)
    ensures !RuleMatch(Lower(""), x).matched
  {
    assert Split(Lower(""), ',') == [Lower("")];
  }

  lemma {:induction false} DedupedRules(entries: seq<string>, x: string)
    ensures FirstRule(Deduped(entries), x) == FirstRule(entries, x)
  {
    hide RuleMatch;
    if entries != [] {
      var before, last := entries[..|entries| - 1], entries[|entries| - 1];
      assert entries == before + [last];
      DedupedRules(before, x);
      FirstRuleConcat(before, [last], x);
      TrimIsTrimmed(last);
      EmptyRuleMatchesNothing(x);
      FirstRuleConcat(Deduped(before), [Trim(last)], x);
      if Trim(last) in Deduped(before) && RuleMatch(Lower(Trim(last)), x).matched {
        MemberFires(Deduped(before), Trim(last), x);
      }
      assert FirstRule([last], x) == FirstRule([Trim(last)], x);
    }
  }

  lemma DedupedDecision(mode: string, entries: seq<string>, x: string)
    requires Supported(mode)
    ensures Decision(mode, Deduped(entries), x) == Decision(mode, entries, x)
  {
    hide FirstEntry, FirstRule, Deduped;
    DedupedEntries(entries, x);
    DedupedRules(entries, x);
  }

  // ---- The theorem ----

  lemma AppendedEntries(existing: seq<string>, append: seq<string>, x: string)
    requires forall e :: e in append ==> Plain(e)
    ensures FirstEntry(existing + append, x).Some? <==> FirstEntry(existing, x).Some? || x in append
  {
    hide FilterPatternMatches;
    FirstEntryExists(existing, x);
    FirstEntryExists(existing + append, x);
    forall e | e in append ensures FilterPatternMatches(e, x) <==> x == e {
      PlainPatternMatches(e, x);
    }
    forall i | 0 <= i < |existing|
    && FilterPatternMatches(existing[i], x) ensures FirstEntry(existing + append, x).Some? {
      assert (existing + append)[i] == existing[i];
    }
    forall i | 0 <= i < |append| && append[i] == x ensures FirstEntry(existing + append, x).Some? {
      assert (existing + append)[|existing| + i] == x;
    }
  }

  /** A rule that the plan prepends fires for its own domain and for nothing else. */
  lemma {:induction false} PrependedRules(prepend: seq<string>, domains: seq<string>, x: string)
    requires forall d :: d in domains ==> Plain(d)
    requires forall e :: e in prepend ==> exists d :: d in domains && e == RealRule(d)
    ensures FirstRule(prepend, x).0 == if RealRule(Normalize(x)) in prepend then Match(REAL, true) else Match("", false)
  {
    hide RuleMatch, RealRule, Normalize;
    if prepend != [] {
      assert forall e :: e in prepend[1..] ==> e in prepend;
      PrependedRules(prepend[1..], domains, x);
      assert prepend[0] in prepend;
      var d :| d in domains && prepend[0] == RealRule(d);
      RealRuleMatches(d, x);
      if RealRule(Normalize(x)) == prepend[0] {
        RealRuleInjective(d, Normalize(x));
      }
    }
  }

  lemma RealRuleInjective(a: string, b: string)
    requires RealRule(a) == RealRule(b)
    ensures a == b
  {
    assert RealRule(a)[7..|RealRule(a)| - 8] == a && RealRule(b)[7..|RealRule(b)| - 8] == b;
  }

  /** Before deduplication: the additions decide the targets, and nothing else. */
  lemma MergedDecision(mode: string, existing: seq<string>, domains: seq<string>, x: string)
    requires Supported(mode) && forall d :: d in domains ==> Plain(d)
    ensures Planned(mode, existing, domains).conflicts == map[] ==>
              var plan := Planned(mode, existing, domains);
              var merged := plan.prepend + existing + plan.append;
              && (x in domains ==> Decision(mode, merged, x) == REAL)
              && (Normalize(x) !in domains ==> Decision(mode, merged, x) == Decision(mode, existing, x))
  {
    hide FirstEntry, FirstRule, RealRule, Normalize, Planned;
    var plan := Planned(mode, existing, domains);
    PlannedParts(mode, existing, domains);
    if x in domains {
      PlainIsNormal(x);
    }
    if mode == RULE {
      PrependedRules(plan.prepend, domains, x);
      FirstRuleConcat(plan.prepend, existing, x);
      assert plan.prepend + existing + plan.append == plan.prepend + existing;
      if RealRule(Normalize(x)) in plan.prepend {
        var d :| d in domains && RealRule(Normalize(x)) == RealRule(d);
        RealRuleInjective(d, Normalize(x));
      }
    } else {
      assert plan.prepend + existing + plan.append == existing + plan.append;
      AppendedEntries(existing, plan.append, x);
      if x in plan.append {
        PlainIsNormal(x);
      }
    }
  }

  /** After a patch without conflicts every target is real, and every other domain is decided as before. */
  lemma PatchDecides(mode: string, existing: seq<string>, domains: seq<string>, x: string)
    requires Supported(mode) && forall d :: d in domains ==> ValidDomain(d)
    ensures Planned(mode, existing, domains).conflicts == map[] ==>
              var patched := Patched(Planned(mode, existing, domains), existing);
              && (x in domains ==> Decision(mode, patched, x) == REAL)
              && (Normalize(x) !in domains ==> Decision(mode, patched, x) == Decision(mode, existing, x))
  {
    hide Decision, Planned, Deduped, Normalize, ValidDomain;
    forall d | d in domains ensures Plain(d) {
      ValidIsNormal(d);
    }
    var plan := Planned(mode, existing, domains);
    var merged := plan.prepend + existing + plan.append;
    MergedDecision(mode, existing, domains, x);
    DedupedDecision(mode, merged, x);
    if plan.append == [] && plan.prepend == [] {
      assert merged == existing;
    }
  }

  /** A filter that already decides every target real needs nothing and conflicts with nothing. */
  lemma {:induction false} NothingToPlan(mode: string, filter: seq<string>, domains: seq<string>)
    requires Supported(mode)
    requires forall d :: d in domains ==> Normalize(d) == d && Decision(mode, filter, d) == REAL
    ensures var plan := Planned(mode, filter, domains);
            plan.append == [] && plan.prepend == [] && plan.conflicts == map[]
  {
    hide FirstEntry, FirstRule, Normalize;
    if domains != [] {
      NothingToPlan(mode, filter, domains[..|domains| - 1]);
      assert domains[|domains| - 1] in domains;
    }
  }

  /** Planning again on the patched filter adds nothing and finds no conflict. */
  lemma PlanAgain(mode: string, existing: seq<string>, domains: seq<string>)
    requires Supported(mode) && forall d :: d in domains ==> ValidDomain(d)
    requires Planned(mode, existing, domains).conflicts == map[]
    ensures var patched := Patched(Planned(mode, existing, domains), existing);
            var plan := Planned(mode, patched, domains);
            plan.append == [] && plan.prepend == [] && plan.conflicts == map[]
  {
    hide Decision, Planned, Patched, Normalize, ValidDomain;
    forall d | d in domains
      ensures Normalize(d) == d && Decision(mode, Patched(Planned(mode, existing, domains), existing), d) == REAL
    {
      ValidIsNormal(d);
      PatchDecides(mode, existing, domains, d);
    }
    NothingToPlan(mode, Patched(Planned(mode, existing, domains), existing), domains);
  }
}
