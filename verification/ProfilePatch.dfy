/** Injecting optimizer results into an effective profile (`profile_patch.go`). */
module ProfilePatch {
  import opened Text
  import opened RealIP

  datatype Yaml = Scalar(text: string) | Sequence(items: seq<Yaml>) | Mapping(pairs: seq<Pair>)

  datatype Pair = Pair(key: string, value: Yaml)

  /** `address` is the canonical IPv4 text of the selection, if it is one. */
  datatype TargetResult = TargetResult(domain: string, address: Option<string>)

  datatype PatchError = NotAMapping | FilterNotASequence | FilterNotScalars | RealIPConflict(conflicts: map<string,
      Conflict>)

  const HOSTS := "hosts"
  const DNS := "dns"
  const FILTER := "fake-ip-filter"
  const MODE := "fake-ip-filter-mode"

  /** Index of the first pair with the key, or the number of pairs. */
  function Find(pairs: seq<Pair>, key: string): (i: nat)
    ensures i <= |pairs|
    ensures i < |pairs| ==> pairs[i].key == key
    ensures forall k :: 0 <= k < i ==> pairs[k].key != key
  {
    if pairs == [] || pairs[0].key == key then 0 else 1 + Find(pairs[1..], key)
  }

  lemma FindUnique(pairs: seq<Pair>, key: string, i: nat)
    requires i < |pairs| && pairs[i].key == key && forall k :: 0 <= k < i ==> pairs[k].key != key
    ensures Find(pairs, key) == i
  {
  }

  function Lookup(pairs: seq<Pair>, key: string): Option<Yaml> {
    var i := Find(pairs, key);
    if i == |pairs| then None else Some(pairs[i].value)
  }

  /** The mapping at a key, or an empty one. */
  function Children(pairs: seq<Pair>, key: string): seq<Pair> {
    match Lookup(pairs, key)
    case Some(Mapping(children)) => children
    case _ => []
  }

  /** The pairs with the key set: in place, or at the end. */
  function Put(pairs: seq<Pair>, key: string, value: Yaml): seq<Pair> {
    var i := Find(pairs, key);
    if i == |pairs| then pairs + [Pair(key, value)] else pairs[i := Pair(key, value)]
  }

  lemma PutLooksUp(pairs: seq<Pair>, key: string, value: Yaml, other: string)
    ensures Lookup(Put(pairs, key, value), other) == if other == key then Some(value) else Lookup(pairs, other)
  {
    var i, j := Find(pairs, key), Find(pairs, other);
    var after := Put(pairs, key, value);
    if other == key {
      FindUnique(after, key, i);
    } else if j < |pairs| {
      FindUnique(after, other, j);
    } else {
      assert forall k :: 0 <= k < |after| ==> after[k].key != other;
    }
  }

  lemma PutMeans(pairs: seq<Pair>, key: string, value: Yaml)
    ensures forall other :: Lookup(Put(pairs, key, value), other) == if other == key then Some(value)
            else Lookup(pairs, other)
  {
    forall other ensures Lookup(Put(pairs, key, value), other) == if other == key then Some(value)
    else Lookup(pairs, other) {
      PutLooksUp(pairs, key, value, other);
    }
  }

  function ScalarText(value: Yaml): string {
    if value.Scalar? then value.text else ""
  }

  // ---- Readers ----

  function FilterMode(dns: seq<Pair>): string {
    match Lookup(dns, MODE)
    case Some(value) => EffectiveMode(ScalarText(value))
    case None => BLACKLIST
  }

  function Trimmed(items: seq<Yaml>): (r: seq<string>)
    ensures |r| == |items|
    ensures forall i :: 0 <= i < |items| ==> r[i] == Trim(ScalarText(items[i]))
  {
    if items == [] then [] else [Trim(ScalarText(items[0]))] + Trimmed(items[1..])
  }

  function FilterEntries(dns: seq<Pair>): Result<seq<string>, PatchError> {
    match Lookup(dns, FILTER)
    case None => Success([])
    case Some(Sequence(items)) =>
      if forall i :: 0 <= i < |items| ==> items[i].Scalar? then Success(Trimmed(items)) else Failure(FilterNotScalars)
    case Some(_) => Failure(FilterNotASequence)
  }

  method MappingStringSequence(dns: seq<Pair>) returns (out: Result<seq<string>, PatchError>)
    ensures out == FilterEntries(dns)
  {
    hide Trim, Trimmed, Find;
    var i := Find(dns, FILTER);
    if i == |dns| {
      return Success([]);
    }
    if !dns[i].value.Sequence? {
      return Failure(FilterNotASequence);
    }
    var items := dns[i].value.items;
    var entries: seq<string> := [];
    for k := 0 to |items|
      invariant forall j :: 0 <= j < k ==> items[j].Scalar?
      invariant |entries| == k
      invariant forall j :: 0 <= j < k ==> entries[j] == Trim(ScalarText(items[j]))
    {
      if !items[k].Scalar? {
        return Failure(FilterNotScalars);
      }
      entries := entries + [Trim(items[k].text)];
    }
    assert entries == Trimmed(items);
    return Success(entries);
  }

  function Scalars(entries: seq<string>): (r: seq<Yaml>)
    ensures |r| == |entries|
    ensures forall i :: 0 <= i < |entries| ==> r[i] == Scalar(entries[i])
  {
    if entries == [] then [] else [Scalar(entries[0])] + Scalars(entries[1..])
  }

  // ---- Results ----

  /** The address for every usable result; a later result for a domain wins. */
  function Selected(results: seq<TargetResult>): map<string, string> {
    if results == [] then map[]
    else
      var before := Selected(results[..|results| - 1]);
      var last := results[|results| - 1];
      if Normalize(last.domain) == "" || last.address.None? then before
      else before[Normalize(last.domain) := last.address.value]
  }

  method SelectResults(results: seq<TargetResult>) returns (selected: map<string, string>)
    ensures selected == Selected(results)
  {
    selected := map[];
    for i := 0 to |results|
      invariant selected == Selected(results[..i])
    {
      assert results[..i + 1][..i] == results[..i];
      var domain := Normalize(results[i].domain);
      if domain == "" || results[i].address.None? {
        continue;
      }
      selected := selected[domain := results[i].address.value];
    }
    assert results[..|results|] == results;
  }

  // ---- Hosts ----

  /** The entries whose normalized name is not overridden, in their order. */
  function Kept(pairs: seq<Pair>, values: map<string, string>): seq<Pair> {
    if pairs == [] then []
    else
      var before := Kept(pairs[..|pairs| - 1], values);
      if Normalize(pairs[|pairs| - 1].key) in values then before else before + [pairs[|pairs| - 1]]
  }

  function Overrides(keys: seq<string>, values: map<string, string>): (r: seq<Pair>)
    requires forall k :: k in keys ==> k in values
    ensures |r| == |keys|
    ensures forall i :: 0 <= i < |keys| ==> r[i] == Pair(keys[i], Scalar(values[keys[i]]))
  {
    if keys == [] then []
    else
      assert keys[|keys| - 1] in keys;
      Overrides(keys[..|keys| - 1], values) + [Pair(keys[|keys| - 1], Scalar(values[keys[|keys| - 1]]))]
  }

  predicate Lists(keys: seq<string>, values: map<string, string>) {
    StrictlySorted(keys) && Elements(keys) == values.Keys && forall k :: k in keys ==> k in values
  }

  method PrependMappingStrings(pairs: seq<Pair>, values: map<string, string>,
      keys: seq<string>) returns (out: seq<Pair>)
    requires Lists(keys, values)
    ensures out == Overrides(keys, values) + Kept(pairs, values)
  {
    hide Normalize, Overrides;
    var remaining := KeepOthers(pairs, values);
    var content: seq<Pair> := [];
    for i := 0 to |keys|
      invariant |content| == i
      invariant forall k :: 0 <= k < i ==> content[k] == Pair(keys[k], Scalar(values[keys[k]]))
    {
      content := content + [Pair(keys[i], Scalar(values[keys[i]]))];
    }
    assert content == Overrides(keys, values);
    return content + remaining;
  }

  method KeepOthers(pairs: seq<Pair>, values: map<string, string>) returns (remaining: seq<Pair>)
    ensures remaining == Kept(pairs, values)
  {
    hide Normalize;
    remaining := [];
    for i := 0 to |pairs|
      invariant remaining == Kept(pairs[..i], values)
    {
      assert pairs[..i + 1][..i] == pairs[..i];
      if Normalize(pairs[i].key) in values {
        continue;
      }
      remaining := remaining + [pairs[i]];
    }
    assert pairs[..|pairs|] == pairs;
  }

  // ---- The patch ----

  class Document {
    var root: seq<Pair>

    constructor (pairs: seq<Pair>)
      ensures root == pairs
    {
      root := pairs;
    }

    /** The mapping at the key; anything else there is replaced by an empty one. */
    method EnsureMapping(key: string) returns (children: seq<Pair>)
      modifies this
      ensures children == Children(old(root), key)
      ensures root == Put(old(root), key, Mapping(children))
    {
      var i := 0;
      while i < |root|
        invariant 0 <= i <= |root|
        invariant forall k :: 0 <= k < i ==> root[k].key != key
      {
        if root[i].key == key {
          FindUnique(root, key, i);
          if root[i].value.Mapping? {
            assert root[i := Pair(key, root[i].value)] == root;
            return root[i].value.pairs;
          }
          root := root[i := Pair(key, Mapping([]))];
          return [];
        }
        i := i + 1;
      }
      root := root + [Pair(key, Mapping([]))];
      return [];
    }

    /** Changes the content of the mapping at the key in place. */
    method SetChildren(key: string, children: seq<Pair>)
      modifies this
      ensures root == Put(old(root), key, Mapping(children))
    {
      root := Put(root, key, Mapping(children));
    }
  }

  /** `after` is `before` with the results injected: new host entries first, filter patched, nothing else. */
  ghost predicate Injected(before: seq<Pair>, after: seq<Pair>, selected: map<string, string>, keys: seq<string>) {
    var dns := Children(before, DNS);
    var entries := FilterEntries(dns);
    && Lists(keys, selected)
    && (forall key :: key != HOSTS && key != DNS ==> Lookup(after, key) == Lookup(before, key))
    && Lookup(after, HOSTS) == Some(Mapping(Overrides(keys, selected) + Kept(Children(before, HOSTS), selected)))
    && Lookup(after, DNS) == Some(Mapping(Children(after, DNS)))
    && (forall key :: key != FILTER ==> Lookup(Children(after, DNS), key) == Lookup(dns, key))
    && entries.Success?
    && var plan := Planned(FilterMode(dns), entries.value, keys);
       plan.conflicts == map[] && FilterEntries(Children(after, DNS)) == Success(Patched(plan, entries.value))
  }

  method ApplyResultsToProfile(profile: Yaml, results: seq<TargetResult>)
    returns (out: Result<Yaml, PatchError>, ghost keys: seq<string>)
    ensures results == [] ==> out == Success(profile)
    ensures results != [] && !profile.Mapping? ==> out == Failure(NotAMapping)
    ensures results != [] && profile.Mapping? && Selected(results) == map[] ==> out == Success(profile)
    ensures results != [] && profile.Mapping? && Selected(results) != map[] ==> Lists(keys, Selected(results))
    ensures results != [] && profile.Mapping? && Selected(results) != map[] ==>
              var dns := Children(profile.pairs, DNS);
              match FilterEntries(dns)
              case Failure(error) => out == Failure(error)
              case Success(entries) =>
                var conflicts := Planned(FilterMode(dns), entries, keys).conflicts;
                if conflicts != map[] then out == Failure(RealIPConflict(conflicts))
                else out.Success? && out.value.Mapping?
                     && Injected(profile.pairs, out.value.pairs, Selected(results), keys)
  {
    keys := [];
    if results == [] {
      return Success(profile), keys;
    }
    if !profile.Mapping? {
      return Failure(NotAMapping), keys;
    }
    var document := new Document(profile.pairs);
    var selected := SelectResults(results);
    if |selected| == 0 {
      return Success(profile), keys;
    }
    var domains := SortedKeys(selected.Keys);
    assert forall k :: k in domains ==> k in Elements(domains);
    keys := domains;
    out := Inject(document, selected, domains);
  }

  /** `after` is `root` with the filter under `dns` patched as planned, and nothing else. */
  ghost predicate FilterInjected(dns: seq<Pair>, root: seq<Pair>, after: seq<Pair>, entries: seq<string>,
      domains: seq<string>) {
    var plan := Planned(FilterMode(dns), entries, domains);
    && (forall key :: key != DNS ==> Lookup(after, key) == Lookup(root, key))
    && (Lookup(root, DNS) == Some(Mapping(dns)) ==> Lookup(after, DNS) == Some(Mapping(Children(after, DNS))))
    && (Lookup(root, DNS) == Some(Mapping(dns)) ==>
          && (forall key :: key != FILTER ==> Lookup(Children(after, DNS), key) == Lookup(dns, key))
          && FilterEntries(Children(after, DNS)) == Success(Patched(plan, entries)))
  }

  /** The part of the patch that edits the document. */
  method Inject(document: Document, selected: map<string, string>, domains: seq<string>) returns (out: Result<Yaml,
      PatchError>)
    requires Lists(domains, selected)
    modifies document
    ensures var before := old(document.root);
            var dns := Children(before, DNS);
            match FilterEntries(dns)
            case Failure(error) => out == Failure(error)
            case Success(entries) =>
              var conflicts := Planned(FilterMode(dns), entries, domains).conflicts;
              if conflicts != map[] then out == Failure(RealIPConflict(conflicts))
              else out.Success? && out.value.Mapping? && Injected(before, out.value.pairs, selected, domains)
  {
    hide Planned, Patched, Kept, Overrides, FilterMode, FilterEntries, Put, Lookup;
    ghost var before := document.root;
    var hosts := document.EnsureMapping(HOSTS);
    PutMeans(before, HOSTS, Mapping(hosts));
    var patchedHosts := PrependMappingStrings(hosts, selected, domains);
    PutMeans(document.root, HOSTS, Mapping(patchedHosts));
    document.SetChildren(HOSTS, patchedHosts);
    ghost var hosted := document.root;
    var dns := document.EnsureMapping(DNS);
    PutMeans(hosted, DNS, Mapping(dns));
    assert dns == Children(before, DNS);
    assert Lookup(document.root, DNS) == Some(Mapping(dns));
    assert Lookup(document.root, HOSTS) == Some(Mapping(patchedHosts));
    assert forall key :: key != HOSTS && key != DNS ==> Lookup(document.root, key) == Lookup(before, key);
    out := InjectFilter(document, dns, domains);
  }

  /** Rewrites the filter at `dns` when the plan asks for it. */
  method InjectFilter(document: Document, dns: seq<Pair>, domains: seq<string>) returns (out: Result<Yaml, PatchError>)
    modifies document
    ensures match FilterEntries(dns)
            case Failure(error) => out == Failure(error)
            case Success(entries) =>
              var conflicts := Planned(FilterMode(dns), entries, domains).conflicts;
              if conflicts != map[] then out == Failure(RealIPConflict(conflicts))
              else out.Success? && out.value.Mapping?
                   && FilterInjected(dns, old(document.root), out.value.pairs, entries, domains)
  {
    hide Planned, FilterMode, FilterEntries, Put, Lookup, Deduped;
    var read := MappingStringSequence(dns);
    if read.Failure? {
      return Failure(read.error);
    }
    var mode := FilterModeOf(dns);
    var plan := PlanRealIP(mode, read.value, domains);
    if |plan.conflicts| > 0 {
      return Failure(RealIPConflict(plan.conflicts));
    }
    if plan.prepend != [] || plan.append != [] {
      var merged := DedupeStrings(plan.prepend + read.value + plan.append);
      var patched := Put(dns, FILTER, Sequence(Scalars(merged)));
      PutMeans(dns, FILTER, Sequence(Scalars(merged)));
      PutMeans(document.root, DNS, Mapping(patched));
      FilterReadsBack(patched, plan.prepend + read.value + plan.append);
      document.SetChildren(DNS, patched);
    }
    return Success(Mapping(document.root));
  }

  method FilterModeOf(dns: seq<Pair>) returns (mode: string)
    ensures EffectiveMode(mode) == FilterMode(dns) && mode == FilterMode(dns)
  {
    mode := "";
    var i := Find(dns, MODE);
    if i < |dns| {
      mode := Lower(Trim(ScalarText(dns[i].value)));
    }
    if mode == "" {
      mode := BLACKLIST;
    }
    EffectiveModeIsFixed(if i < |dns| then ScalarText(dns[i].value) else "");
  }

  lemma EffectiveModeIsFixed(text: string)
    ensures EffectiveMode(EffectiveMode(text)) == EffectiveMode(text)
    ensures Lower(Trim(text)) != "" ==> EffectiveMode(Lower(Trim(text))) == Lower(Trim(text))
  {
    hide Trim;
    TrimIsTrimmed(text);
    var lowered := Lower(Trim(text));
    assert forall i :: 0 <= i < |lowered| ==> IsSpace(lowered[i]) == IsSpace(Trim(text)[i]);
    TrimmedIsFixed(lowered);
    TrimmedIsFixed(BLACKLIST);
    assert Lower(lowered) == lowered && Lower(BLACKLIST) == BLACKLIST;
  }

  /** The filter that was written is read back as written: its entries were trimmed already. */
  lemma FilterReadsBack(dns: seq<Pair>, merged: seq<string>)
    requires Lookup(dns, FILTER) == Some(Sequence(Scalars(Deduped(merged))))
    ensures FilterEntries(dns) == Success(Deduped(merged))
  {
    hide Deduped, Lookup;
    var entries := Deduped(merged);
    DedupedMembers(merged);
    forall i | 0 <= i < |entries| ensures Trim(entries[i]) == entries[i] {
      assert entries[i] in entries;
      var k :| 0 <= k < |merged| && Trim(merged[k]) == entries[i];
      TrimIsTrimmed(merged[k]);
    }
    assert Trimmed(Scalars(entries)) == entries;
  }

  // ---- What an injected profile means ----

  /** The address a host name resolves to: the first entry whose normalized name is `name`. */
  function HostAddress(hosts: seq<Pair>, name: string): Option<Yaml> {
    if hosts == [] then None
    else if Normalize(hosts[0].key) == name then Some(hosts[0].value)
    else HostAddress(hosts[1..], name)
  }

  lemma {:induction false} HostAddressConcat(a: seq<Pair>, b: seq<Pair>, name: string)
    ensures HostAddress(a + b, name) == if HostAddress(a, name).Some? then HostAddress(a, name)
            else HostAddress(b, name)
  {
    hide Normalize;
    if a == [] {
      assert a + b == b;
    } else {
      assert (a + b)[1..] == a[1..] + b;
      HostAddressConcat(a[1..], b, name);
    }
  }

  lemma {:induction false} KeptAddresses(hosts: seq<Pair>, values: map<string, string>, name: string)
    ensures HostAddress(Kept(hosts, values), name) == if name in values then None else HostAddress(hosts, name)
  {
    hide Normalize;
    if hosts != [] {
      var before, last := hosts[..|hosts| - 1], hosts[|hosts| - 1];
      KeptAddresses(before, values, name);
      assert hosts == before + [last];
      HostAddressConcat(before, [last], name);
      HostAddressConcat(Kept(before, values), [last], name);
    }
  }

  lemma {:induction false} OverrideAddresses(keys: seq<string>, values: map<string, string>, name: string)
    requires forall k :: k in keys ==> k in values && Normalize(k) == k
    ensures HostAddress(Overrides(keys, values), name) ==
            if name in keys then Some(Scalar(values[name])) else None
  {
    hide Normalize;
    if keys != [] {
      var before, last := keys[..|keys| - 1], keys[|keys| - 1];
      assert last in keys;
      OverrideAddresses(before, values, name);
      HostAddressConcat(Overrides(before, values), [Pair(last, Scalar(values[last]))], name);
      assert keys == before + [last];
    }
  }

  lemma KeysAreNormal(selected: map<string, string>, keys: seq<string>)
    requires Lists(keys, selected) && forall d :: d in selected ==> ValidDomain(d)
    ensures forall d :: d in keys ==> ValidDomain(d) && Plain(d) && Normalize(d) == d && d in selected
    ensures forall d :: d in selected ==> d in keys
  {
    hide Normalize, ValidDomain;
    forall d | d in keys ensures Plain(d) && Normalize(d) == d {
      ValidIsNormal(d);
    }
    assert forall d :: d in selected ==> d in Elements(keys);
  }

  /** Every selected domain resolves to its address and is decided real; any other name resolves
      and is decided as before. */
  lemma InjectedMeaning(before: seq<Pair>, after: seq<Pair>, selected: map<string, string>, keys: seq<string>,
      x: string)
    requires Injected(before, after, selected, keys)
    requires selected != map[] && forall d :: d in selected ==> ValidDomain(d)
    ensures var mode := FilterMode(Children(after, DNS));
            var patched := FilterEntries(Children(after, DNS));
            var original := FilterEntries(Children(before, DNS));
            && mode == FilterMode(Children(before, DNS)) && Supported(mode) && patched.Success? && original.Success?
            && (x in selected ==> Decision(mode, patched.value, x) == REAL)
            && (Normalize(x) !in selected ==> Decision(mode, patched.value, x) == Decision(mode, original.value, x))
            && (x in selected ==> HostAddress(Children(after, HOSTS), x) == Some(Scalar(selected[x])))
            && (x !in selected ==> HostAddress(Children(after, HOSTS), x) == HostAddress(Children(before, HOSTS), x))
  {
    hide Normalize, ValidDomain, Planned, Patched, Decision, FilterEntries, Overrides, Kept, HostAddress, Lookup;
    KeysAreNormal(selected, keys);
    var dns, hosts := Children(before, DNS), Children(before, HOSTS);
    var mode, original := FilterMode(dns), FilterEntries(dns).value;
    PlannedParts(mode, original, keys);
    var d :| d in selected;
    assert d in keys;
    assert Supported(mode);
    PatchDecides(mode, original, keys, x);
    OverrideAddresses(keys, selected, x);
    KeptAddresses(hosts, selected, x);
    HostAddressConcat(Overrides(keys, selected), Kept(hosts, selected), x);
  }

  lemma {:induction false} KeptDropsOverrides(keys: seq<string>, values: map<string, string>, hosts: seq<Pair>)
    requires forall k :: k in keys ==> k in values && Normalize(k) == k
    ensures Kept(Overrides(keys, values) + Kept(hosts, values), values) == Kept(hosts, values)
    decreases |hosts|, |keys|
  {
    hide Normalize;
    if hosts != [] {
      var before, last := hosts[..|hosts| - 1], hosts[|hosts| - 1];
      KeptDropsOverrides(keys, values, before);
      if Normalize(last.key) !in values {
        var all := Overrides(keys, values) + Kept(hosts, values);
        assert all[..|all| - 1] == Overrides(keys, values) + Kept(before, values);
      }
    } else if keys != [] {
      var front, final := keys[..|keys| - 1], keys[|keys| - 1];
      assert final in keys;
      KeptDropsOverrides(front, values, hosts);
      var all := Overrides(keys, values) + Kept(hosts, values);
      assert all[..|all| - 1] == Overrides(front, values) + Kept(hosts, values);
    }
  }

  /** Injecting the same results again changes neither hosts, nor filter, nor anything else. */
  lemma InjectingAgain(before: seq<Pair>, once: seq<Pair>, twice: seq<Pair>, selected: map<string, string>,
      keys: seq<string>, keysAgain: seq<string>)
    requires Injected(before, once, selected, keys) && Injected(once, twice, selected, keysAgain)
    requires selected != map[] && forall d :: d in selected ==> ValidDomain(d)
    ensures forall key :: key != DNS ==> Lookup(twice, key) == Lookup(once, key)
    ensures forall key :: key != FILTER ==> Lookup(Children(twice, DNS), key) == Lookup(Children(once, DNS), key)
    ensures FilterEntries(Children(twice, DNS)) == FilterEntries(Children(once, DNS))
  {
    hide Normalize, ValidDomain, Planned, FilterEntries, Overrides, Kept, Lookup, Deduped;
    SortedListingUnique(keys, keysAgain);
    KeysAreNormal(selected, keys);
    KeptDropsOverrides(keys, selected, Children(before, HOSTS));
    var dns := Children(before, DNS);
    PlannedParts(FilterMode(dns), FilterEntries(dns).value, keys);
    var d :| d in selected;
    assert d in keys;
    PlanAgain(FilterMode(dns), FilterEntries(dns).value, keys);
  }
}
