/** Suggesting a DHCP pool, and the validators that a saved pool has to pass
    (`network_defaults.go`, `validator.go`, `lan.go`). Addresses are 32-bit numbers. */
module DhcpPool {
  import opened Text
  import opened Arithmetic

  const ADDRESSES := 0x1_0000_0000
  const MIN_PREFIX := 8
  const MAX_PREFIX := 30
  const DEFAULT_PREFIX := 24
  const MINIMUM_HOSTS := 32
  const MAXIMUM_HOSTS := 101

  type Address = n: int | 0 <= n < ADDRESSES

  // ---- Scopes (CIDR blocks, section 3.1 of RFC 4632) ----

  datatype Scope = Scope(gateway: Address, network: Address, size: nat)

  /** The block is aligned, holds the gateway, and fits a supported prefix length. */
  predicate ValidScope(scope: Scope) {
    && 4 <= scope.size && scope.network % scope.size == 0 && scope.network + scope.size <= ADDRESSES
    && scope.network <= scope.gateway < scope.network + scope.size
  }

  /** Configurations written before the prefix length existed have 0 there. */
  function PrefixLenOrDefault(prefixLen: int): int {
    if prefixLen == 0 then DEFAULT_PREFIX else prefixLen
  }

  function NewScope(gateway: Option<Address>, prefixLen: int): (scope: Option<Scope>) {
    var length := PrefixLenOrDefault(prefixLen);
    if gateway.None? || !(MIN_PREFIX <= length <= MAX_PREFIX) then None
    else
      var size := PowerOfTwo(32 - length);
      MultipleBelow(gateway.value, size);
      Some(Scope(gateway.value, gateway.value - gateway.value % size, size))
  }

  lemma PowerSteps(n: nat)
    requires 2 <= n <= 24
    ensures PowerOfTwo(n) >= 4 && exists k: nat :: PowerOfTwo(n) * k == ADDRESSES
  {
    PowersMultiply(n, 32 - n);
    PowersGrow(2, n);
    assert PowerOfTwo(2) == 4;
    PowerThirtyTwo();
  }

  lemma PowerThirtyTwo()
    ensures PowerOfTwo(32) == ADDRESSES
  {
    assert PowerOfTwo(8) == 256;
    PowersMultiply(8, 8);
    PowersMultiply(16, 16);
  }

  lemma {:induction false} PowersMultiply(a: nat, b: nat)
    ensures PowerOfTwo(a) * PowerOfTwo(b) == PowerOfTwo(a + b)
    decreases b
  {
    if b > 0 {
      PowersMultiply(a, b - 1);
    }
  }

  /** A block that starts at a multiple of its size below the end of the address space ends there at the latest. */
  lemma AlignedFits(address: int, size: nat, k: nat)
    requires 0 <= address < size * k && size >= 1
    ensures address - address % size + size <= size * k
  {
    MultipleBelow(address, size);
    MultipleOf(size * k, k, size);
    MultiplesApart(address - address % size, size * k, size);
  }

  lemma NewScopeIsValid(gateway: Option<Address>, prefixLen: int)
    ensures var scope := NewScope(gateway, prefixLen); scope.Some? ==> ValidScope(scope.value)
    ensures NewScope(gateway, prefixLen).Some? <==>
              gateway.Some? && (prefixLen == 0 || MIN_PREFIX <= prefixLen <= MAX_PREFIX)
  {
    var scope := NewScope(gateway, prefixLen);
    if scope.Some? {
      var length := PrefixLenOrDefault(prefixLen);
      PowerSteps(32 - length);
      var k: nat :| PowerOfTwo(32 - length) * k == ADDRESSES;
      MultipleBelow(gateway.value, scope.value.size);
      AlignedFits(gateway.value, scope.value.size, k);
    }
  }

  predicate InLAN(scope: Scope, address: Address) {
    scope.network <= address < scope.network + scope.size
  }

  predicate UsableHost(scope: Scope, address: Address) {
    InLAN(scope, address) && address != scope.network && address != scope.network + scope.size - 1
  }

  function HostCount(scope: Scope): int {
    scope.size - 2
  }

  function Offset(scope: Scope, address: Option<Address>): Option<int> {
    if address.Some? && InLAN(scope, address.value) then Some(address.value - scope.network) else None
  }

  // ---- Comparing addresses byte by byte ----

  function Byte(address: Address, index: nat): int
    requires index < 4
  {
    if index == 0 then address / 0x100_0000
    else if index == 1 then address / 0x1_0000 % 256
    else if index == 2 then address / 256 % 256
    else address % 256
  }

  /** `bytesCompareIPv4`: the order of the numbers. */
  method CompareIPv4(left: Address, right: Address) returns (order: int)
    ensures order == if left < right then -1 else if left > right then 1 else 0
  {
    for index := 0 to 4
      invariant forall k :: 0 <= k < index ==> Byte(left, k) == Byte(right, k)
    {
      if Byte(left, index) < Byte(right, index) {
        FirstDifference(left, right, index);
        return -1;
      }
      if Byte(left, index) > Byte(right, index) {
        FirstDifference(right, left, index);
        return 1;
      }
    }
    BytesSum(left);
    BytesSum(right);
    return 0;
  }

  lemma BytesSum(address: Address)
    ensures address == Byte(address, 0) * 0x100_0000 + Byte(address, 1) * 0x1_0000 + Byte(address, 2) * 256
                       + Byte(address, 3)
    ensures forall k :: 0 <= k < 4 ==> 0 <= Byte(address, k) < 256
  {
    var low, middle, high := address / 256, address / 0x1_0000, address / 0x100_0000;
    assert address == low * 256 + address % 256;
    assert low == middle * 256 + low % 256;
    assert middle == high * 256 + middle % 256;
  }

  lemma FirstDifference(low: Address, high: Address, index: nat)
    requires index < 4 && Byte(low, index) < Byte(high, index)
    requires forall k :: 0 <= k < index ==> Byte(low, k) == Byte(high, k)
    ensures low < high
  {
    hide Byte;
    BytesSum(low);
    BytesSum(high);
  }

  // ---- The validators ----

  datatype RangeFault = NotIPv4 | OutsideLAN | Reversed | NetworkOrBroadcast | HoldsGateway

  method ValidateDHCPRangeInLAN(scope: Scope, start: Option<Address>, end: Option<Address>)
    returns (fault: Option<RangeFault>)
    ensures fault.None? <==>
              && start.Some? && end.Some? && start.value <= end.value
              && UsableHost(scope, start.value) && UsableHost(scope, end.value)
              && !(start.value <= scope.gateway <= end.value)
  {
    if start.None? || end.None? {
      return Some(NotIPv4);
    }
    if !InLAN(scope, start.value) || !InLAN(scope, end.value) {
      return Some(OutsideLAN);
    }
    var order := CompareIPv4(start.value, end.value);
    if order > 0 {
      return Some(Reversed);
    }
    if !UsableHost(scope, start.value) || !UsableHost(scope, end.value) {
      return Some(NetworkOrBroadcast);
    }
    var fromStart := CompareIPv4(scope.gateway, start.value);
    var toEnd := CompareIPv4(scope.gateway, end.value);
    if fromStart >= 0 && toEnd <= 0 {
      return Some(HoldsGateway);
    }
    return None;
  }

  datatype BypassFault = WrongMode | NoBypassGateway | NoBypassDNS | RouterOutsideLAN | RouterNotUsable | RouterInRange

  /** `usesRouter` says whether the policy sends devices to the upstream router. */
  method ValidateRouterBypass(scope: Scope, usesRouter: bool, sameWiFi: bool, router: Option<Address>, dnsCount: nat,
                              start: Option<Address>, end: Option<Address>)
    returns (fault: Option<BypassFault>)
    ensures !usesRouter ==> fault.None?
    ensures usesRouter ==>
              (fault.None? <==>
                 && sameWiFi && router.Some? && dnsCount > 0 && UsableHost(scope, router.value)
                    && router.value != scope.gateway
                 && !(start.Some? && end.Some? && start.value <= router.value <= end.value))
    ensures fault == Some(RouterInRange) ==>
              start.Some? && end.Some? && router.Some? && start.value <= router.value <= end.value
  {
    if !usesRouter {
      return None;
    }
    if !sameWiFi {
      return Some(WrongMode);
    }
    if router.None? {
      return Some(NoBypassGateway);
    }
    if dnsCount == 0 {
      return Some(NoBypassDNS);
    }
    if !InLAN(scope, router.value) {
      return Some(RouterOutsideLAN);
    }
    if !UsableHost(scope, router.value) || router.value == scope.gateway {
      return Some(RouterNotUsable);
    }
    if start.Some? && end.Some? {
      var fromStart := CompareIPv4(router.value, start.value);
      var toEnd := CompareIPv4(router.value, end.value);
      if fromStart >= 0 && toEnd <= 0 {
        return Some(RouterInRange);
      }
    }
    return None;
  }

  // ---- The search ----

  predicate FreeRun(reserved: set<int>, a: int, b: int) {
    a <= b && forall h :: a <= h <= b ==> h !in reserved
  }

  ghost predicate LeftmostLongest(reserved: set<int>, lower: int, upper: int, start: int, end: int) {
    && lower <= start && end <= upper && FreeRun(reserved, start, end)
    && forall a, b :: lower <= a && b <= upper && FreeRun(reserved, a, b) ==>
                        b - a < end - start || (b - a == end - start && start <= a)
  }

  /** The leftmost of the longest unreserved runs between the bounds. */
  method LongestAvailableHostRun(reserved: set<int>, lower: int, upper: int) returns (start: int, end: int, ok: bool)
    ensures ok ==> LeftmostLongest(reserved, lower, upper, start, end)
    ensures !ok ==> forall a, b :: lower <= a && b <= upper ==> !FreeRun(reserved, a, b)
  {
    start, end := 0, 0;
    var currentStart, bestLength, currentLength := 0, 0, 0;
    var host := lower;
    while host <= upper
      invariant lower <= host
      invariant 0 <= currentLength <= bestLength
      invariant currentLength > 0 ==>
                  lower <= currentStart == host - currentLength && FreeRun(reserved, currentStart, host - 1)
      invariant forall a, b :: lower <= a && b == host - 1 && FreeRun(reserved, a, b) ==>
                              currentLength > 0 && currentStart <= a
      invariant bestLength > 0 ==>
                  lower <= start && end < host && end <= upper && FreeRun(reserved, start, end)
                  && bestLength == end - start + 1
      invariant forall a, b :: lower <= a && b < host && FreeRun(reserved, a, b) ==>
                                 b - a + 1 < bestLength || (b - a + 1 == bestLength && start <= a)
      decreases upper - host
    {
      if host in reserved {
        currentLength := 0;
        host := host + 1;
        continue;
      }
      forall a | lower <= a && FreeRun(reserved, a, host) ensures a == host || FreeRun(reserved, a, host - 1) {
      }
      if currentLength == 0 {
        currentStart := host;
      }
      currentLength := currentLength + 1;
      if currentLength > bestLength {
        bestLength, start, end := currentLength, currentStart, host;
      }
      host := host + 1;
    }
    ok := bestLength > 0;
  }

  // ---- The suggestion ----

  /** The host's network as the platform reports it; `None` where a text is no IPv4 address. */
  datatype Snapshot = Snapshot(address: Option<Address>, mask: Option<Address>, router: Option<Address>)

  /** The number of leading ones of a contiguous mask. */
  function PrefixLength(mask: Address, n: nat): (r: Option<nat>)
    requires n <= 32
    ensures r.Some? ==> r.value <= 32
  {
    if mask == ADDRESSES - PowerOfTwo(32 - n) then Some(n)
    else if n == 0 then None
    else PrefixLength(mask, n - 1)
  }

  function SnapshotPrefix(snapshot: Snapshot): (r: Option<nat>)
    ensures r.Some? ==> MIN_PREFIX <= r.value <= MAX_PREFIX
  {
    if snapshot.mask.None? then None
    else
      var length := PrefixLength(snapshot.mask.value, 32);
      if length.None? || !(MIN_PREFIX <= length.value <= MAX_PREFIX) then None else length
  }

  function SnapshotScope(snapshot: Snapshot): Option<Scope> {
    var prefix := SnapshotPrefix(snapshot);
    if prefix.None? then None else NewScope(snapshot.address, prefix.value)
  }

  /** Addresses the pool must not hold: the gateway's own, the router's, and the protected ones. */
  predicate Spared(snapshot: Snapshot, protected: seq<Option<Address>>, address: Address) {
    Some(address) == snapshot.address || Some(address) == snapshot.router || Some(address) in protected
  }

  function MinimumHosts(hosts: int): int {
    if hosts / 2 < MINIMUM_HOSTS then hosts / 2 else MINIMUM_HOSTS
  }

  function ClampHost(offset: int, hosts: int): int {
    if offset < 1 then 1 else if offset > hosts then hosts else offset
  }

  ghost predicate ReservedAre(reserved: set<int>, scope: Scope, snapshot: Snapshot, protected: seq<Option<Address>>) {
    forall address: Address :: InLAN(scope, address) ==>
                                 (address - scope.network in reserved <==> Spared(snapshot, protected, address))
  }

  method Reserve(scope: Scope, snapshot: Snapshot, protected: seq<Option<Address>>) returns (reserved: set<int>)
    ensures ReservedAre(reserved, scope, snapshot, protected)
  {
    var values := [snapshot.address, snapshot.router] + protected;
    reserved := {};
    for i := 0 to |values|
      invariant forall address: Address :: InLAN(scope, address) ==>
                                             (address - scope.network in reserved <==> Some(address) in values[..i])
    {
      var offset := Offset(scope, values[i]);
      if offset.Some? {
        reserved := reserved + {offset.value};
      }
      assert values[..i + 1] == values[..i] + [values[i]];
    }
    assert values[..|values|] == values;
  }

  datatype Suggestion = NoMask | NoAddress | NoRoom | Pool(start: Address, end: Address)

  /** A suggested pool is safe and passes the range validator's conditions; there is none only where
      the subnet has no long enough run of free addresses. */
  method SuggestDHCPRange(snapshot: Snapshot, protected: seq<Option<Address>>) returns (suggestion: Suggestion)
    ensures suggestion == NoMask <==> SnapshotPrefix(snapshot).None?
    ensures suggestion == NoAddress <==> SnapshotPrefix(snapshot).Some? && snapshot.address.None?
    ensures suggestion.Pool? ==>
              && SnapshotScope(snapshot).Some?
              && PoolIsGood(SnapshotScope(snapshot).value, snapshot, protected, suggestion.start, suggestion.end)
              && Preferred(SnapshotScope(snapshot).value, snapshot, protected, suggestion.start, suggestion.end)
    ensures suggestion == NoRoom <==>
              && SnapshotScope(snapshot).Some?
              && var scope := SnapshotScope(snapshot).value;
                 forall a: Address, b: Address ::
                   FreeAddresses(scope, snapshot, protected, a, b) ==> b - a + 1 < MinimumHosts(HostCount(scope))
  {
    var prefix := SnapshotPrefix(snapshot);
    if prefix.None? {
      return NoMask;
    }
    var scoped := NewScope(snapshot.address, prefix.value);
    if scoped.None? {
      return NoAddress;
    }
    var scope := scoped.value;
    NewScopeIsValid(snapshot.address, prefix.value);
    var reserved := Reserve(scope, snapshot, protected);
    suggestion := SearchWindows(scope, snapshot, protected, reserved);
  }

  /** Usable addresses of the LAN, none of them to be spared. */
  ghost predicate FreeAddresses(scope: Scope, snapshot: Snapshot, protected: seq<Option<Address>>, start: Address,
      end: Address) {
    && UsableHost(scope, start) && UsableHost(scope, end) && start <= end
    && forall address: Address :: start <= address <= end ==> !Spared(snapshot, protected, address)
  }

  ghost predicate PoolIsGood(scope: Scope, snapshot: Snapshot, protected: seq<Option<Address>>, start: Address,
      end: Address) {
    && FreeAddresses(scope, snapshot, protected, start, end)
    && MinimumHosts(HostCount(scope)) <= end - start + 1 <= MAXIMUM_HOSTS
  }

  /** The host offsets tried in turn: the middle of the subnet first, all of it last. */
  function Window(index: nat, hosts: int): (int, int)
    requires index < 3
  {
    if index == 0 then (ClampHost(100, hosts), ClampHost(200, hosts))
    else if index == 1 then (ClampHost(20, hosts), ClampHost(240, hosts))
    else (ClampHost(1, hosts), ClampHost(hosts, hosts))
  }

  /** Free addresses inside a window. */
  ghost predicate FreeIn(scope: Scope, snapshot: Snapshot, protected: seq<Option<Address>>, index: nat, start: Address,
      end: Address)
    requires index < 3
  {
    var window := Window(index, HostCount(scope));
    && window.0 <= start - scope.network && end - scope.network <= window.1
    && FreeAddresses(scope, snapshot, protected, start, end)
  }

  ghost predicate HasRoom(scope: Scope, snapshot: Snapshot, protected: seq<Option<Address>>, index: nat)
    requires index < 3
  {
    exists a: Address, b: Address ::
      FreeIn(scope, snapshot, protected, index, a, b) && b - a + 1 >= MinimumHosts(HostCount(scope))
  }

  /** The leftmost of the window's longest runs of free addresses. */
  ghost predicate BestIn(scope: Scope, snapshot: Snapshot, protected: seq<Option<Address>>, index: nat, start: Address,
      end: Address)
    requires index < 3
  {
    && FreeIn(scope, snapshot, protected, index, start, end)
    && forall a: Address, b: Address :: FreeIn(scope, snapshot, protected, index, a, b) ==>
                                          b - a < end - start || (b - a == end - start && start <= a)
  }

  /** The pool is the best run of the first window with room, cut at the longest suggested size. */
  ghost predicate Preferred(scope: Scope, snapshot: Snapshot, protected: seq<Option<Address>>, start: Address,
      end: Address) {
    exists index: nat, last: Address | index < 3 ::
      && HasRoom(scope, snapshot, protected, index)
      && (forall earlier: nat | earlier < index :: !HasRoom(scope, snapshot, protected, earlier))
      && BestIn(scope, snapshot, protected, index, start, last)
      && end == if last - start + 1 > MAXIMUM_HOSTS then start + MAXIMUM_HOSTS - 1 else last
  }

  method SearchWindows(scope: Scope, snapshot: Snapshot, protected: seq<Option<Address>>, reserved: set<int>)
    returns (suggestion: Suggestion)
    requires ValidScope(scope) && ReservedAre(reserved, scope, snapshot, protected)
    ensures suggestion == NoRoom || suggestion.Pool?
    ensures suggestion.Pool? ==>
              && PoolIsGood(scope, snapshot, protected, suggestion.start, suggestion.end)
              && Preferred(scope, snapshot, protected, suggestion.start, suggestion.end)
    ensures suggestion == NoRoom <==>
              forall a: Address, b: Address ::
                FreeAddresses(scope, snapshot, protected, a, b) ==> b - a + 1 < MinimumHosts(HostCount(scope))
  {
    hide Spared, ReservedAre, LeftmostLongest, FreeRun, FreeIn, HasRoom, BestIn, FreeAddresses, UsableHost;
    var hosts := HostCount(scope);
    var minimumHosts := MinimumHosts(hosts);
    for i := 0 to 3
      invariant forall earlier: nat | earlier < i :: !HasRoom(scope, snapshot, protected, earlier)
    {
      var start, end, ok := LongestAvailableHostRun(reserved, Window(i, hosts).0, Window(i, hosts).1);
      WindowSearched(scope, snapshot, protected, reserved, i, start, end, ok);
      if !ok || end - start + 1 < minimumHosts {
        continue;
      }
      ghost var last := end;
      if end - start + 1 > MAXIMUM_HOSTS {
        end := start + MAXIMUM_HOSTS - 1;
      }
      PartIsFree(scope, snapshot, protected, scope.network + start, scope.network + end, scope.network + last);
      return Pool(scope.network + start, scope.network + end);
    }
    NoWindowHasRoom(scope, snapshot, protected);
    return NoRoom;
  }

  /** What the search of a window's offsets says about its addresses. */
  lemma WindowSearched(scope: Scope, snapshot: Snapshot, protected: seq<Option<Address>>, reserved: set<int>,
                       index: nat, start: int, end: int, ok: bool)
    requires ValidScope(scope) && ReservedAre(reserved, scope, snapshot, protected) && index < 3
    requires var window := Window(index, HostCount(scope));
             if ok then LeftmostLongest(reserved, window.0, window.1, start, end)
             else forall a, b :: window.0 <= a && b <= window.1 ==> !FreeRun(reserved, a, b)
    ensures ok ==> 1 <= start <= end <= HostCount(scope)
                   && BestIn(scope, snapshot, protected, index, scope.network + start, scope.network + end)
                   && FreeAddresses(scope, snapshot, protected, scope.network + start, scope.network + end)
    ensures HasRoom(scope, snapshot, protected, index) <==> ok && end - start + 1 >= MinimumHosts(HostCount(scope))
  {
    hide Spared, ReservedAre, FreeAddresses;
    forall a: Address, b: Address | FreeIn(scope, snapshot, protected, index, a, b)
      ensures ok && (b - a < end - start || (b - a == end - start && scope.network + start <= a)) {
      OffsetsOf(scope, snapshot, protected, a, b);
      RunsAreAddresses(scope, snapshot, protected, reserved, a - scope.network, b - scope.network);
      assert FreeRun(reserved, a - scope.network, b - scope.network);
    }
    if ok {
      RunsAreAddresses(scope, snapshot, protected, reserved, start, end);
      assert FreeIn(scope, snapshot, protected, index, scope.network + start, scope.network + end);
    }
  }

  lemma OffsetsOf(scope: Scope, snapshot: Snapshot, protected: seq<Option<Address>>, start: Address, end: Address)
    requires ValidScope(scope) && FreeAddresses(scope, snapshot, protected, start, end)
    ensures 1 <= start - scope.network <= end - scope.network <= HostCount(scope)
  {
  }

  lemma PartIsFree(scope: Scope, snapshot: Snapshot, protected: seq<Option<Address>>, start: Address, end: Address,
                   last: Address)
    requires ValidScope(scope) && FreeAddresses(scope, snapshot, protected, start, last) && start <= end <= last
    ensures FreeAddresses(scope, snapshot, protected, start, end)
  {
    hide Spared;
  }

  /** The last window is the whole subnet. */
  lemma NoWindowHasRoom(scope: Scope, snapshot: Snapshot, protected: seq<Option<Address>>)
    requires ValidScope(scope) && !HasRoom(scope, snapshot, protected, 2)
    ensures forall a: Address, b: Address ::
              FreeAddresses(scope, snapshot, protected, a, b) ==> b - a + 1 < MinimumHosts(HostCount(scope))
  {
    hide FreeAddresses;
    forall a: Address, b: Address | FreeAddresses(scope, snapshot, protected, a, b)
      ensures b - a + 1 < MinimumHosts(HostCount(scope)) {
      OffsetsOf(scope, snapshot, protected, a, b);
      assert FreeIn(scope, snapshot, protected, 2, a, b);
    }
  }

  /** Runs of unreserved offsets are runs of free addresses. */
  lemma RunsAreAddresses(scope: Scope, snapshot: Snapshot, protected: seq<Option<Address>>, reserved: set<int>, a: int,
      b: int)
    requires ValidScope(scope) && ReservedAre(reserved, scope, snapshot, protected)
    requires 1 <= a <= b <= HostCount(scope)
    ensures FreeRun(reserved, a, b) <==> FreeAddresses(scope, snapshot, protected, scope.network + a, scope.network + b)
  {
    hide Spared;
    if FreeAddresses(scope, snapshot, protected, scope.network + a, scope.network + b) {
      forall h | a <= h <= b ensures h !in reserved {
        assert InLAN(scope, scope.network + h);
        assert scope.network + h - scope.network == h;
      }
    }
  }

  /** A suggested pool is accepted by the range validator, and whoever sends devices to a usable
      upstream router is not refused for the pool's sake. */
  method SuggestedPoolIsAccepted(snapshot: Snapshot, protected: seq<Option<Address>>, usesRouter: bool, dnsCount: nat)
    returns (rangeFault: Option<RangeFault>, bypassFault: Option<BypassFault>, suggestion: Suggestion)
    ensures suggestion.Pool? ==> rangeFault.None? && bypassFault != Some(RouterInRange)
  {
    suggestion := SuggestDHCPRange(snapshot, protected);
    rangeFault, bypassFault := None, None;
    if suggestion.Pool? {
      var scope := SnapshotScope(snapshot).value;
      assert Spared(snapshot, protected, scope.gateway);
      assert snapshot.router.Some? ==> Spared(snapshot, protected, snapshot.router.value);
      rangeFault := ValidateDHCPRangeInLAN(scope, Some(suggestion.start), Some(suggestion.end));
      bypassFault := ValidateRouterBypass(scope, usesRouter, true, snapshot.router, dnsCount, Some(suggestion.start),
        Some(suggestion.end));
    }
  }
}
