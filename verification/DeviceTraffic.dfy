/** Accounting of active connections to devices (`device_traffic.go`): every connection and every
    byte rate is counted exactly once. Addresses are normalized texts, "" where there is none. */
module DeviceTraffic {
  import opened Text

  datatype Connection = Connection(id: string, source: string, process: bool, kind: string, upload: int, download: int)

  datatype Identity = Leased | Registered | Observed | GatewayLocal

  datatype Row = Row(
    identity: Identity,
    ip: string,
    mac: string,
    hostname: string,
    name: string,
    upstreamRouter: bool,
    online: bool,
    active: int,
    upload: int,
    download: int,
    uploadRate: int,
    downloadRate: int)

  datatype Lease = Lease(ip: string, mac: string, hostname: string, online: bool)

  datatype Managed = Managed(ip: string, mac: string, name: string, upstreamRouter: bool)

  datatype Totals = Totals(devices: int, active: int, upload: int, download: int, uploadRate: int, downloadRate: int)

  datatype Transport = NoTransport | TUN | ExplicitProxy | TUNAndExplicitProxy | OtherTransport

  datatype Response = Response(
    local: Row,
    transport: Transport,
    devices: seq<Row>,
    totals: Totals,
    unidentified: int,
    unclassified: int,
    unmatched: int,
    gatewayUploadRate: int,
    gatewayDownloadRate: int)

  /** The gateway's normalized address, loopback addresses, and other hosts of the gateway's LAN. */
  datatype Network = Network(gateway: string, loopback: string -> bool, onLAN: string -> bool)

  function NewRow(identity: Identity, ip: string): Row {
    Row(identity, ip, "", "", "", false, false, 0, 0, 0, 0, 0)
  }

  function NonNegative(value: int): nat {
    if value < 0 then 0 else value
  }

  // ---- Sums ----

  function Sum<T>(xs: seq<T>, f: T -> int): int {
    if xs == [] then 0 else Sum(xs[..|xs| - 1], f) + f(xs[|xs| - 1])
  }

  lemma {:induction false} SumConcat<T>(a: seq<T>, b: seq<T>, f: T -> int)
    ensures Sum(a + b, f) == Sum(a, f) + Sum(b, f)
  {
    if b == [] {
      assert a + b == a;
    } else {
      assert (a + b)[..|a + b| - 1] == a + b[..|b| - 1];
      SumConcat(a, b[..|b| - 1], f);
    }
  }

  lemma SumSplit<T>(xs: seq<T>, i: nat, f: T -> int)
    requires i < |xs|
    ensures Sum(xs, f) == Sum(xs[..i], f) + f(xs[i]) + Sum(xs[i + 1..], f)
  {
    assert xs == xs[..i] + ([xs[i]] + xs[i + 1..]);
    SumConcat(xs[..i], [xs[i]] + xs[i + 1..], f);
    SumConcat([xs[i]], xs[i + 1..], f);
    SumOne(xs[i], f);
  }

  lemma SumOne<T>(x: T, f: T -> int)
    ensures Sum([x], f) == f(x)
  {
    assert [x][..0] == [];
  }

  lemma SumUpdate<T>(xs: seq<T>, i: nat, x: T, f: T -> int)
    requires i < |xs|
    ensures Sum(xs[i := x], f) == Sum(xs, f) - f(xs[i]) + f(x)
  {
    var ys := xs[i := x];
    SumSplit(xs, i, f);
    SumSplit(ys, i, f);
    assert ys[..i] == xs[..i] && ys[i + 1..] == xs[i + 1..];
  }

  lemma {:induction false} SumPermuted<T>(a: seq<T>, b: seq<T>, f: T -> int)
    requires multiset(a) == multiset(b)
    ensures Sum(a, f) == Sum(b, f)
  {
    if a != [] {
      var last := a[|a| - 1];
      assert last in multiset(a);
      var j :| 0 <= j < |b| && b[j] == last;
      var rest := b[..j] + b[j + 1..];
      assert a == a[..|a| - 1] + [last];
      assert b == b[..j] + [b[j]] + b[j + 1..];
      assert multiset(rest) == multiset(b) - multiset{last};
      SumPermuted(a[..|a| - 1], rest, f);
      SumSplit(b, j, f);
      SumConcat(b[..j], b[j + 1..], f);
    } else {
      assert |multiset(b)| == 0;
    }
  }

  lemma {:induction false} SumZero<T>(xs: seq<T>, f: T -> int)
    requires forall x :: x in xs ==> f(x) == 0
    ensures Sum(xs, f) == 0
  {
    if xs != [] {
      SumZero(xs[..|xs| - 1], f);
    }
  }

  lemma {:induction false} SumNonNegative<T>(xs: seq<T>, f: T -> int)
    requires forall x :: x in xs ==> f(x) >= 0
    ensures Sum(xs, f) >= 0
  {
    if xs != [] {
      SumNonNegative(xs[..|xs| - 1], f);
    }
  }

  // ---- Which connections are the gateway's own ----

  predicate Evidence(connection: Connection, network: Network) {
    connection.source == network.gateway || network.loopback(connection.source) || connection.process
  }

  /** `gatewayLocalSourceIPs`. */
  function LocalSources(connections: seq<Connection>, network: Network): set<string> {
    if connections == [] then {}
    else
      var last := connections[|connections| - 1];
      LocalSources(connections[..|connections| - 1], network)
      + if last.source != "" && Evidence(last, network) then {last.source} else {}
  }

  method FindLocalSources(connections: seq<Connection>, network: Network) returns (sources: set<string>)
    ensures sources == LocalSources(connections, network)
  {
    sources := {};
    for i := 0 to |connections|
      invariant sources == LocalSources(connections[..i], network)
    {
      assert connections[..i + 1][..i] == connections[..i];
      if connections[i].source == "" {
        continue;
      }
      if Evidence(connections[i], network) {
        sources := sources + {connections[i].source};
      }
    }
    assert connections[..|connections|] == connections;
  }

  predicate IsLocal(connection: Connection, network: Network, sources: set<string>) {
    || connection.process
    || (connection.source != ""
        && (connection.source == network.gateway || network.loopback(connection.source)
            || connection.source in sources))
  }

  lemma {:induction false} LocalSourcesHaveEvidence(connections: seq<Connection>, network: Network, source: string)
    ensures source in LocalSources(connections, network) <==>
            source != "" && exists i :: 0 <= i < |connections|
                                        && connections[i].source == source && Evidence(connections[i], network)
  {
    hide Evidence;
    if connections != [] {
      var before := connections[..|connections| - 1];
      LocalSourcesHaveEvidence(before, network, source);
      if i :| 0 <= i < |connections| && connections[i].source == source && Evidence(connections[i], network) {
        assert i < |before| ==> before[i] == connections[i];
      }
      if i :| 0 <= i < |before| && before[i].source == source && Evidence(before[i], network) {
        assert connections[i] == before[i];
      }
    }
  }

  /** One source is never split between the gateway and a device. */
  lemma SourcesAreNotSplit(connections: seq<Connection>, network: Network, a: Connection, b: Connection)
    requires a in connections && b in connections && a.source == b.source != ""
    ensures var sources := LocalSources(connections, network); IsLocal(a, network, sources) == IsLocal(b, network,
                sources)
  {
    LocalSourcesHaveEvidence(connections, network, a.source);
    var i :| 0 <= i < |connections| && connections[i] == a;
    var j :| 0 <= j < |connections| && connections[j] == b;
  }

  /** The three ways to account for a connection. `ips` are the addresses of the device rows. */
  datatype Account = ToGateway | ToDevice(ip: string) | ToNobody

  function Classify(connection: Connection, network: Network, sources: set<string>, ips: set<string>): Account {
    if IsLocal(connection, network, sources) then ToGateway
    else if connection.source in ips then ToDevice(connection.source)
    else ToNobody
  }

  /** A quantity summed over the connections of one account. */
  function Charged(connections: seq<Connection>, account: Account, measure: Connection -> int,
                   network: Network, sources: set<string>, ips: set<string>): int
  {
    Sum(connections, c => if Classify(c, network, sources, ips) == account then measure(c) else 0)
  }

  /** The same over all devices. */
  function ChargedToDevices(connections: seq<Connection>, measure: Connection -> int,
                            network: Network, sources: set<string>, ips: set<string>): int
  {
    Sum(connections, c => if Classify(c, network, sources, ips).ToDevice? then measure(c) else 0)
  }

  /** Whatever is measured, the accounts together hold all of it. */
  lemma {:induction false} AccountsAreComplete(connections: seq<Connection>, measure: Connection -> int,
                                               network: Network, sources: set<string>, ips: set<string>)
    ensures Charged(connections, ToGateway, measure, network, sources, ips)
            + ChargedToDevices(connections, measure, network, sources, ips)
            + Charged(connections, ToNobody, measure, network, sources, ips) == Sum(connections, measure)
  {
    hide Classify;
    if connections != [] {
      AccountsAreComplete(connections[..|connections| - 1], measure, network, sources, ips);
    }
  }

  // ---- Rows ----

  predicate IndexOK(rows: seq<Row>, byIP: map<string, nat>) {
    && (forall ip :: ip in byIP ==> ip != "" && byIP[ip] < |rows| && rows[byIP[ip]].ip == ip)
    && (forall i :: 0 <= i < |rows| ==> rows[i].ip in byIP)
  }

  predicate Blank(row: Row) {
    row.active == 0 && row.upload == 0 && row.download == 0 && row.uploadRate == 0 && row.downloadRate == 0
  }

  predicate DistinctRows(rows: seq<Row>) {
    forall i, j :: 0 <= i < j < |rows| ==> rows[i].ip != rows[j].ip
  }

  /** Leases with an address have different addresses. */
  predicate DistinctLeases(leases: seq<Lease>) {
    forall i, j :: 0 <= i < j < |leases| && leases[i].ip != "" ==> leases[i].ip != leases[j].ip
  }

  method LeaseRows(leases: seq<Lease>) returns (rows: seq<Row>, byIP: map<string, nat>)
    ensures IndexOK(rows, byIP)
    ensures forall row :: row in rows ==> Blank(row) && row.identity == Leased
    ensures DistinctLeases(leases) ==> DistinctRows(rows)
    ensures forall lease :: lease in leases && lease.ip != "" ==> lease.ip in byIP
  {
    hide IndexOK, Trim, Lower;
    rows, byIP := [], map[];
    assert IndexOK(rows, byIP) by {
      NoRowsOK();
    }
    for i := 0 to |leases|
      invariant IndexOK(rows, byIP)
      invariant forall row :: row in rows ==> Blank(row) && row.identity == Leased
      invariant byIP.Keys == set j | 0 <= j < i && leases[j].ip != "" :: leases[j].ip
      invariant DistinctLeases(leases) ==> DistinctRows(rows)
    {
      var lease := leases[i];
      if lease.ip == "" {
        continue;
      }
      var row := NewRow(Leased, lease.ip).(mac := Lower(Trim(lease.mac)), hostname := lease.hostname,
        online := lease.online);
      RowAppended(rows, byIP, row);
      assert DistinctLeases(leases) ==> lease.ip !in byIP;
      byIP := byIP[lease.ip := |rows|];
      rows := rows + [row];
    }
  }

  lemma NoRowsOK()
    ensures IndexOK([], map[])
  {
  }

  lemma RowAppended(rows: seq<Row>, byIP: map<string, nat>, row: Row)
    requires IndexOK(rows, byIP) && row.ip != ""
    ensures IndexOK(rows + [row], byIP[row.ip := |rows|])
    ensures DistinctRows(rows) && row.ip !in byIP ==> DistinctRows(rows + [row])
  {
  }

  /** Registered devices: a row of their own, or their name on the row that has their address. */
  method AddRegistered(initial: seq<Row>, index: map<string, nat>, policy: seq<Managed>, network: Network,
      observeLAN: bool)
    returns (rows: seq<Row>, byIP: map<string, nat>)
    requires IndexOK(initial, index) && forall row :: row in initial ==> Blank(row) && row.identity != Observed
    ensures IndexOK(rows, byIP) && index.Keys <= byIP.Keys
    ensures forall row :: row in rows ==> Blank(row) && row.identity != Observed
    ensures DistinctRows(initial) ==> DistinctRows(rows)
  {
    hide IndexOK, Blank, DistinctRows, Trim, Lower;
    rows, byIP := initial, index;
    for i := 0 to |policy|
      invariant IndexOK(rows, byIP) && index.Keys <= byIP.Keys
      invariant forall row :: row in rows ==> Blank(row) && row.identity != Observed
      invariant DistinctRows(initial) ==> DistinctRows(rows)
    {
      var managed := policy[i];
      if managed.ip == "" || (network.gateway != "" && !network.onLAN(managed.ip)) {
        continue;
      }
      if managed.ip in byIP {
        var k := byIP[managed.ip];
        RowRenamed(rows, byIP, k, managed.name, managed.upstreamRouter);
        if (observeLAN && Trim(managed.mac) == "") || Lower(rows[k].mac) == Lower(managed.mac) {
          rows := rows[k := rows[k].(name := managed.name, upstreamRouter := managed.upstreamRouter)];
        }
        continue;
      }
      var row := NewRow(Registered, managed.ip).(name := managed.name, mac := Lower(Trim(managed.mac)),
        upstreamRouter := managed.upstreamRouter);
      RowAppended(rows, byIP, row);
      RowIsBlank(row);
      byIP := byIP[managed.ip := |rows|];
      rows := rows + [row];
    }
  }

  lemma RowIsBlank(row: Row)
    requires row.active == row.upload == row.download == row.uploadRate == row.downloadRate == 0
    ensures Blank(row)
  {
  }

  lemma RowRenamed(rows: seq<Row>, byIP: map<string, nat>, k: nat, name: string, upstreamRouter: bool)
    requires IndexOK(rows, byIP) && k in byIP.Values
    requires forall row :: row in rows ==> Blank(row) && row.identity != Observed
    ensures k < |rows|
    ensures var renamed := rows[k := rows[k].(name := name, upstreamRouter := upstreamRouter)];
            && IndexOK(renamed, byIP)
            && (forall row :: row in renamed ==> Blank(row) && row.identity != Observed)
            && (DistinctRows(rows) ==> DistinctRows(renamed))
  {
    assert rows[k] in rows;
  }

  /** A connection of another host of the LAN. */
  predicate Observable(connection: Connection, network: Network, sources: set<string>) {
    !IsLocal(connection, network, sources) && network.onLAN(connection.source)
  }

  /** Other hosts of the LAN that have connections. */
  method AddObserved(initial: seq<Row>, index: map<string, nat>, connections: seq<Connection>, network: Network,
                     sources: set<string>, observeLAN: bool)
    returns (rows: seq<Row>, byIP: map<string, nat>)
    requires IndexOK(initial, index) && !network.onLAN("") && forall row :: row in initial ==> Blank(row)
    ensures IndexOK(rows, byIP) && index.Keys <= byIP.Keys
    ensures forall row :: row in rows ==> Blank(row)
    ensures DistinctRows(initial) ==> DistinctRows(rows)
    ensures observeLAN ==>
              forall c :: Observable(c, network, sources) && c in connections ==> c.source in byIP
  {
    hide IsLocal;
    rows, byIP := initial, index;
    for i := 0 to |connections|
      invariant IndexOK(rows, byIP) && index.Keys <= byIP.Keys
      invariant forall row :: row in rows ==> Blank(row)
      invariant DistinctRows(initial) ==> DistinctRows(rows)
      invariant observeLAN ==>
                  forall k :: 0 <= k < i && Observable(connections[k], network, sources) ==>
                    connections[k].source in byIP
    {
      var source := connections[i].source;
      if IsLocal(connections[i], network, sources) || !observeLAN || !network.onLAN(source) || source in byIP {
        continue;
      }
      byIP := byIP[source := |rows|];
      rows := rows + [NewRow(Observed, source).(online := true)];
    }
  }

  // ---- Counting ----

  const ONE: Connection -> int := (c: Connection) => 1
  const UPLOAD: Connection -> int := (c: Connection) => NonNegative(c.upload)
  const DOWNLOAD: Connection -> int := (c: Connection) => NonNegative(c.download)
  const ROW_ACTIVE: Row -> int := (row: Row) => row.active
  const ROW_UPLOAD: Row -> int := (row: Row) => row.upload
  const ROW_DOWNLOAD: Row -> int := (row: Row) => row.download

  lemma ChargedStep(connections: seq<Connection>, k: nat, account: Account, measure: Connection -> int,
                    network: Network, sources: set<string>, ips: set<string>)
    requires k < |connections|
    ensures Charged(connections[..k + 1], account, measure, network, sources, ips) ==
            Charged(connections[..k], account, measure, network, sources, ips)
            + if Classify(connections[k], network, sources, ips) == account then measure(connections[k]) else 0
  {
    assert connections[..k + 1][..k] == connections[..k];
  }

  /** The row has exactly the connections of the account, with their bytes. */
  ghost predicate Holds(row: Row, connections: seq<Connection>, account: Account, network: Network,
      sources: set<string>, ips: set<string>) {
    && row.active == Charged(connections, account, ONE, network, sources, ips)
    && row.upload == Charged(connections, account, UPLOAD, network, sources, ips)
    && row.download == Charged(connections, account, DOWNLOAD, network, sources, ips)
  }

  function Counted(row: Row, connection: Connection): Row {
    row.(active := row.active + 1, online := true,
         upload := row.upload + NonNegative(connection.upload),
             download := row.download + NonNegative(connection.download))
  }

  lemma HoldsStep(row: Row, connections: seq<Connection>, k: nat, account: Account, network: Network,
      sources: set<string>, ips: set<string>)
    requires k < |connections| && Holds(row, connections[..k], account, network, sources, ips)
    ensures var mine := Classify(connections[k], network, sources, ips) == account;
            Holds(if mine then Counted(row, connections[k])
                  else row, connections[..k + 1], account, network, sources, ips)
  {
    hide Classify, Charged;
    ChargedStep(connections, k, account, ONE, network, sources, ips);
    ChargedStep(connections, k, account, UPLOAD, network, sources, ips);
    ChargedStep(connections, k, account, DOWNLOAD, network, sources, ips);
  }

  /** Counters moved, nothing else; counted rows are online. */
  predicate SameDevice(before: Row, after: Row) {
    after == before.(active := after.active, upload := after.upload, download := after.download, online := after.online)
    && after.active >= 0 && after.online == (before.online || after.active > 0)
  }

  /** Rows that own their address hold its connections; a row whose address a later row took has none. */
  ghost predicate RowsHold(initial: seq<Row>, rows: seq<Row>, byIP: map<string, nat>, connections: seq<Connection>,
      network: Network, sources: set<string>) {
    && |rows| == |initial|
    && forall i :: 0 <= i < |rows| ==>
                     && SameDevice(initial[i], rows[i])
                     && rows[i].ip in byIP
                     && (byIP[rows[i].ip] == i ==> Holds(rows[i], connections, ToDevice(rows[i].ip), network, sources,
                                                         byIP.Keys))
                     && (byIP[rows[i].ip] != i ==> Blank(rows[i]))
  }

  /** The sums over all rows are the sums over all connections of devices. */
  ghost predicate TotalsHold(rows: seq<Row>, connections: seq<Connection>, network: Network, sources: set<string>,
      ips: set<string>) {
    && Sum(rows, ROW_ACTIVE) == ChargedToDevices(connections, ONE, network, sources, ips)
    && Sum(rows, ROW_UPLOAD) == ChargedToDevices(connections, UPLOAD, network, sources, ips)
    && Sum(rows, ROW_DOWNLOAD) == ChargedToDevices(connections, DOWNLOAD, network, sources, ips)
  }

  lemma TotalsStep(rows: seq<Row>, connections: seq<Connection>, k: nat, i: nat, network: Network,
      sources: set<string>, ips: set<string>)
    requires k < |connections| && TotalsHold(rows, connections[..k], network, sources, ips)
    ensures !Classify(connections[k], network, sources, ips).ToDevice? ==>
              TotalsHold(rows, connections[..k + 1], network, sources, ips)
    ensures Classify(connections[k], network, sources, ips).ToDevice? && i < |rows| ==>
              TotalsHold(rows[i := Counted(rows[i], connections[k])], connections[..k + 1], network, sources, ips)
  {
    hide Classify;
    assert connections[..k + 1][..k] == connections[..k];
    if i < |rows| {
      SumUpdate(rows, i, Counted(rows[i], connections[k]), ROW_ACTIVE);
      SumUpdate(rows, i, Counted(rows[i], connections[k]), ROW_UPLOAD);
      SumUpdate(rows, i, Counted(rows[i], connections[k]), ROW_DOWNLOAD);
    }
  }

  lemma RowsStep(initial: seq<Row>, rows: seq<Row>, byIP: map<string, nat>, connections: seq<Connection>, k: nat,
      network: Network, sources: set<string>)
    requires k < |connections| && IndexOK(initial, byIP)
             && RowsHold(initial, rows, byIP, connections[..k], network, sources)
    ensures var account := Classify(connections[k], network, sources, byIP.Keys);
            if account.ToDevice? then
              && account.ip in byIP && byIP[account.ip] < |rows|
              && var i := byIP[account.ip];
                 RowsHold(initial, rows[i := Counted(rows[i], connections[k])], byIP, connections[..k + 1], network,
                          sources)
            else RowsHold(initial, rows, byIP, connections[..k + 1], network, sources)
  {
    hide Holds;
    forall i | 0 <= i < |rows| && byIP[rows[i].ip] == i
      ensures var mine := Classify(connections[k], network, sources, byIP.Keys) == ToDevice(rows[i].ip);
              Holds(if mine then Counted(rows[i], connections[k])
                    else rows[i], connections[..k + 1], ToDevice(rows[i].ip), network, sources, byIP.Keys)
    {
      HoldsStep(rows[i], connections, k, ToDevice(rows[i].ip), network, sources, byIP.Keys);
    }
  }

  lemma NothingCounted(rows: seq<Row>, byIP: map<string, nat>, network: Network, sources: set<string>)
    requires IndexOK(rows, byIP) && forall row :: row in rows ==> Blank(row)
    ensures RowsHold(rows, rows, byIP, [], network, sources)
    ensures TotalsHold(rows, [], network, sources, byIP.Keys)
  {
    SumZero(rows, ROW_ACTIVE);
    SumZero(rows, ROW_UPLOAD);
    SumZero(rows, ROW_DOWNLOAD);
    forall i | 0 <= i < |rows|
      ensures SameDevice(rows[i], rows[i]) && Holds(rows[i], [], ToDevice(rows[i].ip), network, sources, byIP.Keys)
    {
      assert rows[i] in rows;
    }
  }

  function KindTransport(kind: string): Transport {
    var lowered := Lower(kind);
    if lowered == "tun" then TUN
    else if lowered in {"http", "https", "mixed", "socks", "socks4", "socks5"} then ExplicitProxy
    else OtherTransport
  }

  function CombinedTransport(tun: bool, explicitProxy: bool, any: bool): Transport {
    if tun && explicitProxy then TUNAndExplicitProxy
    else if tun then TUN
    else if explicitProxy then ExplicitProxy
    else if any then OtherTransport
    else NoTransport
  }

  /** Counts every connection into its account. */
  method Count(initial: seq<Row>, byIP: map<string, nat>, connections: seq<Connection>, network: Network,
      sources: set<string>)
    returns (rows: seq<Row>, local: Row, transport: Transport, unclassified: int)
    requires IndexOK(initial, byIP) && forall row :: row in initial ==> Blank(row)
    ensures RowsHold(initial, rows, byIP, connections, network, sources)
    ensures TotalsHold(rows, connections, network, sources, byIP.Keys)
    ensures Holds(local, connections, ToGateway, network, sources, byIP.Keys)
    ensures local.ip == network.gateway && local.identity == GatewayLocal && local.uploadRate == 0
            && local.downloadRate == 0
    ensures unclassified == Charged(connections, ToNobody, ONE, network, sources, byIP.Keys)
  {
    hide Holds, RowsHold, TotalsHold, Charged;
    rows := initial;
    local := NewRow(GatewayLocal, network.gateway);
    unclassified := 0;
    var tun, explicitProxy := false, false;
    NothingCounted(rows, byIP, network, sources);
    NothingCharged(local, network, sources, byIP.Keys);
    for k := 0 to |connections|
      invariant RowsHold(initial, rows, byIP, connections[..k], network, sources)
      invariant TotalsHold(rows, connections[..k], network, sources, byIP.Keys)
      invariant Holds(local, connections[..k], ToGateway, network, sources, byIP.Keys)
      invariant local.ip == network.gateway && local.identity == GatewayLocal && local.uploadRate == 0
                && local.downloadRate == 0
      invariant unclassified == Charged(connections[..k], ToNobody, ONE, network, sources, byIP.Keys)
    {
      var connection := connections[k];
      RowsStep(initial, rows, byIP, connections, k, network, sources);
      HoldsStep(local, connections, k, ToGateway, network, sources, byIP.Keys);
      ChargedStep(connections, k, ToNobody, ONE, network, sources, byIP.Keys);
      TotalsStep(rows, connections, k, if connection.source in byIP then byIP[connection.source] else 0, network,
        sources, byIP.Keys);
      if IsLocal(connection, network, sources) {
        local := Counted(local, connection);
        tun := tun || KindTransport(connection.kind) == TUN;
        explicitProxy := explicitProxy || KindTransport(connection.kind) == ExplicitProxy;
        continue;
      }
      if connection.source !in byIP {
        unclassified := unclassified + 1;
        continue;
      }
      var index := byIP[connection.source];
      rows := rows[index := Counted(rows[index], connection)];
    }
    assert connections[..|connections|] == connections;
    transport := CombinedTransport(tun, explicitProxy, local.active > 0);
  }

  lemma NothingCharged(row: Row, network: Network, sources: set<string>, ips: set<string>)
    requires Blank(row)
    ensures Holds(row, [], ToGateway, network, sources, ips)
    ensures Charged([], ToNobody, ONE, network, sources, ips) == 0
  {
  }

  // ---- Order of the rows ----

  /** The listing's order: busiest first, then online, then by name and address. */
  predicate Before(a: Row, b: Row) {
    if a.active != b.active then a.active > b.active
    else if a.online != b.online then a.online
    else if a.hostname != b.hostname then Less(a.hostname, b.hostname)
    else Less(a.ip, b.ip)
  }

  predicate Ordered(rows: seq<Row>) {
    forall i, j :: 0 <= i < j < |rows| ==> !Before(rows[j], rows[i])
  }

  lemma NotBeforeIsTransitive(a: Row, b: Row, c: Row)
    requires !Before(b, a) && !Before(c, b)
    ensures !Before(c, a)
  {
    LessChain(a.hostname, b.hostname, c.hostname);
    LessChain(a.ip, b.ip, c.ip);
    LessIrreflexive(a.hostname);
    LessIrreflexive(a.ip);
  }

  lemma LessChain(a: string, b: string, c: string)
    ensures !Less(b, a) && !Less(c, b) ==> !Less(c, a)
    ensures a != b ==> (Less(a, b) <==> !Less(b, a))
    ensures a != c ==> (Less(a, c) <==> !Less(c, a))
    ensures b != c ==> (Less(b, c) <==> !Less(c, b))
  {
    Antisymmetric(a, b);
    Antisymmetric(a, c);
    Antisymmetric(b, c);
    if Less(c, a) && !Less(c, b) && b != c {
      LessIsTransitive(b, c, a);
    }
  }

  lemma Antisymmetric(a: string, b: string)
    ensures a != b ==> (Less(a, b) <==> !Less(b, a))
  {
    LessIsTotal(a, b);
    if Less(a, b) && Less(b, a) {
      LessIsTransitive(a, b, a);
      LessIrreflexive(a);
    }
  }

  /** A stable sort. */
  method SortRows(rows: seq<Row>) returns (sorted: seq<Row>)
    ensures multiset(sorted) == multiset(rows) && Ordered(sorted)
  {
    hide Before;
    sorted := [];
    for i := 0 to |rows|
      invariant multiset(sorted) == multiset(rows[..i]) && Ordered(sorted)
    {
      assert rows[..i + 1] == rows[..i] + [rows[i]];
      sorted := InsertRow(sorted, rows[i]);
    }
    assert rows[..|rows|] == rows;
  }

  method InsertRow(sorted: seq<Row>, row: Row) returns (out: seq<Row>)
    requires Ordered(sorted)
    ensures multiset(out) == multiset(sorted) + multiset{row} && Ordered(out)
  {
    hide Before;
    var i := |sorted|;
    while i > 0 && Before(row, sorted[i - 1])
      invariant 0 <= i <= |sorted|
      invariant forall k :: i <= k < |sorted| ==> Before(row, sorted[k])
    {
      i := i - 1;
    }
    forall k | 0 <= k < i ensures !Before(row, sorted[k]) {
      if k < i - 1 {
        NotBeforeIsTransitive(sorted[k], sorted[i - 1], row);
      }
    }
    forall k | i <= k < |sorted| ensures !Before(sorted[k], row) {
      BeforeIsAsymmetric(row, sorted[k]);
    }
    InsertedIsOrdered(sorted, i, row);
    out := sorted[..i] + [row] + sorted[i..];
  }

  lemma InsertedIsOrdered(sorted: seq<Row>, i: nat, row: Row)
    requires Ordered(sorted) && i <= |sorted|
    requires forall k :: 0 <= k < i ==> !Before(row, sorted[k])
    requires forall k :: i <= k < |sorted| ==> !Before(sorted[k], row)
    ensures Ordered(sorted[..i] + [row] + sorted[i..])
    ensures multiset(sorted[..i] + [row] + sorted[i..]) == multiset(sorted) + multiset{row}
  {
    hide Before;
    assert sorted == sorted[..i] + sorted[i..];
    var out := sorted[..i] + [row] + sorted[i..];
    forall j, k | 0 <= j < k < |out| ensures !Before(out[k], out[j]) {
      if j < i && k > i {
        assert !Before(sorted[k - 1], sorted[j]);
      } else if j > i {
        assert !Before(sorted[k - 1], sorted[j - 1]);
      }
    }
  }

  lemma BeforeIsAsymmetric(a: Row, b: Row)
    requires Before(a, b)
    ensures !Before(b, a)
  {
    Antisymmetric(a.hostname, b.hostname);
    Antisymmetric(a.ip, b.ip);
    LessIrreflexive(a.ip);
  }

  // ---- The aggregation ----

  function Addresses(rows: seq<Row>): set<string> {
    set row | row in rows :: row.ip
  }

  const ROW_OBSERVED: Row -> int := (row: Row) => if row.identity == Observed then row.active else 0

  /** Every connection of the snapshot, and every byte, is in exactly one row or category. */
  ghost predicate Conserves(response: Response, connections: seq<Connection>, network: Network, sources: set<string>) {
    var ips := Addresses(response.devices);
    && response.totals.devices == |response.devices|
    && response.totals.active == Sum(response.devices, ROW_ACTIVE)
    && response.totals.upload == Sum(response.devices, ROW_UPLOAD)
    && response.totals.download == Sum(response.devices, ROW_DOWNLOAD)
    && response.totals.active + response.local.active + response.unclassified == |connections|
    && response.totals.upload + response.local.upload + Charged(connections, ToNobody, UPLOAD, network, sources, ips)
       == Sum(connections, UPLOAD)
    && response.totals.download + response.local.download + Charged(connections, ToNobody, DOWNLOAD, network, sources,
                                                                    ips)
       == Sum(connections, DOWNLOAD)
    && Holds(response.local, connections, ToGateway, network, sources, ips)
    && response.unclassified == Charged(connections, ToNobody, ONE, network, sources, ips)
    && response.unidentified == Sum(response.devices, ROW_OBSERVED)
    && response.unmatched == response.local.active + response.unclassified
  }

  predicate NoRates(response: Response) {
    && response.gatewayUploadRate == 0 && response.gatewayDownloadRate == 0
    && response.local.uploadRate == 0 && response.local.downloadRate == 0
    && response.totals.uploadRate == 0 && response.totals.downloadRate == 0
    && forall row :: row in response.devices ==> row.uploadRate == 0 && row.downloadRate == 0
  }

  /** `aggregateDeviceTrafficWithPolicy`, from the selected leases on. */
  method Aggregate(leases: seq<Lease>, policy: seq<Managed>, connections: seq<Connection>, network: Network,
      observeLAN: bool)
    returns (response: Response)
    requires !network.onLAN("")
    ensures Conserves(response, connections, network, LocalSources(connections, network))
    ensures Ordered(response.devices) && NoRates(response) && "" !in Addresses(response.devices)
    ensures response.local.ip == network.gateway
    ensures DistinctLeases(leases) ==>
              && DistinctRows(response.devices)
              && forall row :: row in response.devices ==>
                   Holds(row, connections, ToDevice(row.ip), network, LocalSources(connections, network),
                         Addresses(response.devices))
    ensures observeLAN ==>
              forall c :: c in connections && Observable(c, network, LocalSources(connections, network)) ==>
                            c.source in Addresses(response.devices)
  {
    hide IsLocal, Holds, Charged, ChargedToDevices, RowsHold, TotalsHold, LocalSources, Blank, IndexOK, DistinctRows,
      Ordered;
    var sources := FindLocalSources(connections, network);
    var rows, byIP := LeaseRows(leases);
    rows, byIP := AddRegistered(rows, byIP, policy, network, observeLAN);
    rows, byIP := AddObserved(rows, byIP, connections, network, sources, observeLAN);
    var counted, local, transport, unclassified := Count(rows, byIP, connections, network, sources);
    var sorted := SortRows(counted);
    ghost var ips := Addresses(sorted);
    AddressesAreIndexed(rows, counted, byIP, connections, network, sources, sorted);
    SortedSums(counted, sorted);
    Complete(counted, connections, network, sources, ips, local, unclassified);
    if DistinctLeases(leases) {
      EveryRowHolds(rows, counted, byIP, connections, network, sources, sorted);
    }
    var totals, unidentified := AddUp(sorted);
    response := Response(local, transport, sorted, totals, unidentified, unclassified, local.active + unclassified, 0,
      0);
  }

  method AddUp(rows: seq<Row>) returns (totals: Totals, unidentified: int)
    ensures totals == Totals(|rows|, Sum(rows, ROW_ACTIVE), Sum(rows, ROW_UPLOAD), Sum(rows, ROW_DOWNLOAD), 0, 0)
    ensures unidentified == Sum(rows, ROW_OBSERVED)
  {
    totals, unidentified := Totals(|rows|, 0, 0, 0, 0, 0), 0;
    for i := 0 to |rows|
      invariant totals == Totals(|rows|, Sum(rows[..i], ROW_ACTIVE), Sum(rows[..i], ROW_UPLOAD),
                                 Sum(rows[..i], ROW_DOWNLOAD), 0, 0)
      invariant unidentified == Sum(rows[..i], ROW_OBSERVED)
    {
      assert rows[..i + 1][..i] == rows[..i];
      var row := rows[i];
      totals := totals.(active := totals.active + row.active, upload := totals.upload + row.upload,
        download := totals.download + row.download);
      if row.identity == Observed {
        unidentified := unidentified + row.active;
      }
    }
    assert rows[..|rows|] == rows;
  }

  lemma SortedMembers(rows: seq<Row>, sorted: seq<Row>)
    requires multiset(sorted) == multiset(rows)
    ensures forall row :: row in sorted <==> row in rows
    ensures Addresses(sorted) == Addresses(rows)
  {
    forall row ensures row in sorted <==> row in rows {
      assert row in sorted <==> row in multiset(sorted);
      assert row in rows <==> row in multiset(rows);
    }
  }

  lemma AddressesAreIndexed(initial: seq<Row>, counted: seq<Row>, byIP: map<string, nat>, connections: seq<Connection>,
                            network: Network, sources: set<string>, sorted: seq<Row>)
    requires IndexOK(initial, byIP) && (forall row :: row in initial ==> Blank(row))
    requires RowsHold(initial, counted, byIP, connections, network, sources) && multiset(sorted) == multiset(counted)
    ensures Addresses(sorted) == byIP.Keys && "" !in byIP
    ensures forall row :: row in sorted ==> row.uploadRate == 0 && row.downloadRate == 0
  {
    hide Holds;
    SortedMembers(counted, sorted);
    forall ip | ip in byIP ensures ip in Addresses(counted) {
      assert counted[byIP[ip]].ip == ip;
    }
    forall row | row in counted ensures row.ip in byIP && row.uploadRate == 0 && row.downloadRate == 0 {
      var i :| 0 <= i < |counted| && counted[i] == row;
      assert initial[i] in initial;
    }
  }

  lemma SortedSums(rows: seq<Row>, sorted: seq<Row>)
    requires multiset(sorted) == multiset(rows)
    ensures Sum(sorted, ROW_ACTIVE) == Sum(rows, ROW_ACTIVE)
    ensures Sum(sorted, ROW_UPLOAD) == Sum(rows, ROW_UPLOAD)
    ensures Sum(sorted, ROW_DOWNLOAD) == Sum(rows, ROW_DOWNLOAD)
  {
    SumPermuted(sorted, rows, ROW_ACTIVE);
    SumPermuted(sorted, rows, ROW_UPLOAD);
    SumPermuted(sorted, rows, ROW_DOWNLOAD);
  }

  lemma {:induction false} SumOfOnes(connections: seq<Connection>)
    ensures Sum(connections, ONE) == |connections|
  {
    if connections != [] {
      SumOfOnes(connections[..|connections| - 1]);
    }
  }

  lemma Complete(rows: seq<Row>, connections: seq<Connection>, network: Network, sources: set<string>,
      ips: set<string>, local: Row, unclassified: int)
    requires TotalsHold(rows, connections, network, sources, ips)
             && Holds(local, connections, ToGateway, network, sources, ips)
    requires unclassified == Charged(connections, ToNobody, ONE, network, sources, ips)
    ensures Sum(rows, ROW_ACTIVE) + local.active + unclassified == |connections|
    ensures Sum(rows, ROW_UPLOAD) + local.upload + Charged(connections, ToNobody, UPLOAD, network, sources, ips)
            == Sum(connections, UPLOAD)
    ensures Sum(rows, ROW_DOWNLOAD) + local.download + Charged(connections, ToNobody, DOWNLOAD, network, sources, ips)
            == Sum(connections, DOWNLOAD)
  {
    hide Charged, ChargedToDevices, Sum;
    AccountsAreComplete(connections, ONE, network, sources, ips);
    AccountsAreComplete(connections, UPLOAD, network, sources, ips);
    AccountsAreComplete(connections, DOWNLOAD, network, sources, ips);
    SumOfOnes(connections);
  }

  lemma EveryRowHolds(initial: seq<Row>, counted: seq<Row>, byIP: map<string, nat>, connections: seq<Connection>,
                      network: Network, sources: set<string>, sorted: seq<Row>)
    requires IndexOK(initial, byIP) && DistinctRows(initial)
    requires RowsHold(initial, counted, byIP, connections, network, sources) && multiset(sorted) == multiset(counted)
    ensures DistinctRows(sorted)
    ensures forall row :: row in sorted ==> Holds(row, connections, ToDevice(row.ip), network, sources, byIP.Keys)
  {
    hide Holds;
    SortedMembers(counted, sorted);
    assert forall i :: 0 <= i < |counted| ==> counted[i].ip == initial[i].ip;
    DistinctAfterSort(counted, sorted);
    forall row | row in counted ensures Holds(row, connections, ToDevice(row.ip), network, sources, byIP.Keys) {
      var i :| 0 <= i < |counted| && counted[i] == row;
      assert byIP[row.ip] == i;
    }
  }

  lemma DistinctAfterSort(rows: seq<Row>, sorted: seq<Row>)
    requires DistinctRows(rows) && multiset(sorted) == multiset(rows)
    ensures DistinctRows(sorted)
  {
    forall i, j | 0 <= i < j < |sorted| ensures sorted[i].ip != sorted[j].ip {
      if sorted[i].ip == sorted[j].ip {
        SortedMembers(rows, sorted);
        assert sorted[i] in rows && sorted[j] in rows;
        assert sorted[i] == sorted[j];
        TwiceInMultiset(sorted, i, j);
        OnceInMultiset(rows, sorted[i]);
      }
    }
  }

  lemma TwiceInMultiset<T>(xs: seq<T>, i: nat, j: nat)
    requires i < j < |xs| && xs[i] == xs[j]
    ensures multiset(xs)[xs[i]] >= 2
  {
    assert xs == xs[..j] + ([xs[j]] + xs[j + 1..]);
    assert xs[i] in xs[..j];
  }

  lemma OnceInMultiset(rows: seq<Row>, row: Row)
    requires DistinctRows(rows) && row in rows
    ensures multiset(rows)[row] == 1
  {
    var i :| 0 <= i < |rows| && rows[i] == row;
    assert rows == rows[..i] + [row] + rows[i + 1..];
    assert row !in rows[..i] && row !in rows[i + 1..];
  }
}
