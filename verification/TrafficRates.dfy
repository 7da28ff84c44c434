/** Byte rates between two snapshots (`trafficRateSampler`): the gateway's rate is the sum of the
    rates of its accounts, and none is negative, even when a counter starts over. */
module TrafficRates {
  import opened Text
  import opened DeviceTraffic

  datatype Counters = Counters(upload: nat, download: nat)

  const SECOND := 1000000000
  const MAX_GAP := 15 * SECOND

  /** Growth of a counter; one that went back has started over. */
  function CounterDelta(current: int, previous: int): nat {
    var now, before := NonNegative(current), NonNegative(previous);
    if now <= before then 0 else now - before
  }

  /** The quotient of a positive number of bytes and a span in nanoseconds as whole bytes per second,
      however the division rounds. */
  type Division = (int, int) -> nat

  function BytesPerSecond(delta: int, elapsed: int, divide: Division): nat {
    if delta <= 0 || elapsed <= 0 then 0 else divide(delta, elapsed)
  }

  /** The last counters of every identified connection. */
  function Current(connections: seq<Connection>): map<string, Counters> {
    if connections == [] then map[]
    else
      var last := connections[|connections| - 1];
      var before := Current(connections[..|connections| - 1]);
      if last.id == "" then before
      else before[last.id := Counters(NonNegative(last.upload), NonNegative(last.download))]
  }

  /** The rate of a connection since the earlier sample: none for one that was not seen then. */
  function UploadRate(previous: map<string, Counters>, elapsed: int, divide: Division): Connection -> int {
    (c: Connection) =>
      if c.id == "" || c.id !in previous then 0
      else BytesPerSecond(CounterDelta(c.upload, previous[c.id].upload), elapsed, divide)
  }

  function DownloadRate(previous: map<string, Counters>, elapsed: int, divide: Division): Connection -> int {
    (c: Connection) =>
      if c.id == "" || c.id !in previous then 0
      else BytesPerSecond(CounterDelta(c.download, previous[c.id].download), elapsed, divide)
  }

  const ROW_UPLOAD_RATE: Row -> int := (row: Row) => row.uploadRate
  const ROW_DOWNLOAD_RATE: Row -> int := (row: Row) => row.downloadRate

  /** Rates charged to a row. */
  ghost predicate RatesHold(row: Row, connections: seq<Connection>, account: Account, up: Connection -> int,
                            down: Connection -> int, network: Network, sources: set<string>, ips: set<string>) {
    && row.uploadRate == Charged(connections, account, up, network, sources, ips)
    && row.downloadRate == Charged(connections, account, down, network, sources, ips)
  }

  ghost predicate RateTotalsHold(rows: seq<Row>, connections: seq<Connection>, up: Connection -> int,
                                 down: Connection -> int, network: Network, sources: set<string>, ips: set<string>) {
    && Sum(rows, ROW_UPLOAD_RATE) == ChargedToDevices(connections, up, network, sources, ips)
    && Sum(rows, ROW_DOWNLOAD_RATE) == ChargedToDevices(connections, down, network, sources, ips)
  }

  /** What an annotated response says of the rates of the snapshot. */
  ghost predicate ConservesRates(response: Response, connections: seq<Connection>, up: Connection -> int,
                                 down: Connection -> int, network: Network, sources: set<string>) {
    var ips := Addresses(response.devices);
    && response.gatewayUploadRate == Sum(connections, up)
    && response.gatewayDownloadRate == Sum(connections, down)
    && response.gatewayUploadRate ==
       response.totals.uploadRate + response.local.uploadRate + Charged(connections, ToNobody, up, network, sources,
                                                                        ips)
    && response.gatewayDownloadRate ==
       response.totals.downloadRate + response.local.downloadRate + Charged(connections, ToNobody, down, network,
                                                                            sources, ips)
    && RatesHold(response.local, connections, ToGateway, up, down, network, sources, ips)
    && response.totals.uploadRate == Sum(response.devices, ROW_UPLOAD_RATE)
    && response.totals.downloadRate == Sum(response.devices, ROW_DOWNLOAD_RATE)
    && (DistinctRows(response.devices) ==>
          forall row :: row in response.devices ==>
                          RatesHold(row, connections, ToDevice(row.ip), up, down, network, sources, ips))
  }

  predicate NoNegativeRate(response: Response) {
    && response.gatewayUploadRate >= 0 && response.gatewayDownloadRate >= 0
    && response.local.uploadRate >= 0 && response.local.downloadRate >= 0
    && response.totals.uploadRate >= 0 && response.totals.downloadRate >= 0
    && forall row :: row in response.devices ==> row.uploadRate >= 0 && row.downloadRate >= 0
  }

  /** Only rates differ. */
  predicate OnlyRatesDiffer(before: Response, after: Response) {
    && after == before.(local := after.local, devices := after.devices, totals := after.totals,
                        gatewayUploadRate := after.gatewayUploadRate, gatewayDownloadRate := after.gatewayDownloadRate)
    && after.local == before.local.(uploadRate := after.local.uploadRate, downloadRate := after.local.downloadRate)
    && after.totals == before.totals.(uploadRate := after.totals.uploadRate, downloadRate := after.totals.downloadRate)
    && |after.devices| == |before.devices|
    && forall i :: 0 <= i < |after.devices| ==> SameButRates(before.devices[i], after.devices[i])
  }

  predicate SameButRates(before: Row, after: Row) {
    after == before.(uploadRate := after.uploadRate, downloadRate := after.downloadRate)
  }

  class Sampler {
    var sampledAt: Option<int>
    var connections: map<string, Counters>

    const divide: Division

    constructor (divide: Division)
      ensures sampledAt == None && connections == map[] && this.divide == divide
    {
      this.divide := divide;
      sampledAt, connections := None, map[];
    }

    method Reset()
      modifies this
      ensures sampledAt == None && connections == map[]
    {
      sampledAt, connections := None, map[];
    }

    /** No earlier sample, time that stood still or went back, or too long a pause. */
    predicate Stale(at: int)
      reads this
    {
      sampledAt.None? || at - sampledAt.value <= 0 || at - sampledAt.value > MAX_GAP
    }

    method Annotate(response: Response, snapshot: seq<Connection>, network: Network, at: int) returns (out: Response)
      requires NoRates(response) && response.local.ip == network.gateway && "" !in Addresses(response.devices)
      modifies this
      ensures sampledAt == Some(at) && connections == Current(snapshot)
      ensures old(Stale(at)) ==> out == response
      ensures !old(Stale(at)) ==>
                var elapsed := at - old(sampledAt).value;
                && OnlyRatesDiffer(response, out) && NoNegativeRate(out)
                && ConservesRates(out, snapshot, UploadRate(old(connections), elapsed, divide),
                                  DownloadRate(old(connections), elapsed, divide),
                                  network, LocalSources(snapshot, network))
    {
      hide OnlyRatesDiffer, ConservesRates, NoNegativeRate, NoRates, Addresses, LocalSources;
      var current := Collect(snapshot);
      if Stale(at) {
        sampledAt, connections := Some(at), current;
        return response;
      }
      var elapsed := at - sampledAt.value;
      out := AddRates(response, snapshot, network, connections, elapsed, divide);
      sampledAt, connections := Some(at), current;
    }
  }

  method Collect(snapshot: seq<Connection>) returns (current: map<string, Counters>)
    ensures current == Current(snapshot)
  {
    current := map[];
    for i := 0 to |snapshot|
      invariant current == Current(snapshot[..i])
    {
      assert snapshot[..i + 1][..i] == snapshot[..i];
      if snapshot[i].id != "" {
        current := current[snapshot[i].id := Counters(NonNegative(snapshot[i].upload),
                                                      NonNegative(snapshot[i].download))];
      }
    }
    assert snapshot[..|snapshot|] == snapshot;
  }

  /** Where an address's row is: the last one, should several share it. */
  method IndexRows(rows: seq<Row>) returns (byIP: map<string, nat>)
    requires "" !in Addresses(rows)
    ensures IndexOK(rows, byIP) && byIP.Keys == Addresses(rows)
  {
    byIP := map[];
    for i := 0 to |rows|
      invariant forall ip :: ip in byIP ==> byIP[ip] < i && rows[byIP[ip]].ip == ip
      invariant byIP.Keys == Addresses(rows[..i])
    {
      assert rows[..i + 1] == rows[..i] + [rows[i]];
      byIP := byIP[rows[i].ip := i];
    }
    assert rows[..|rows|] == rows;
    forall i | 0 <= i < |rows| ensures rows[i].ip in byIP {
      assert rows[i] in rows;
    }
    forall ip | ip in byIP ensures ip != "" {
      assert rows[byIP[ip]] in rows;
    }
  }

  function Rated(row: Row, up: int, down: int): Row {
    row.(uploadRate := row.uploadRate + up, downloadRate := row.downloadRate + down)
  }

  /** The row an address leads to has the rates of the address, another row of that address has none. */
  ghost predicate RowsSoFar(initial: seq<Row>, rows: seq<Row>, byIP: map<string, nat>, done: seq<Connection>,
                            up: Connection -> int, down: Connection -> int, network: Network, sources: set<string>) {
    && |rows| == |initial|
    && (forall i :: 0 <= i < |rows| ==> SameButRates(initial[i], rows[i]) && rows[i].ip in byIP)
    && (forall i :: 0 <= i < |rows| && byIP[rows[i].ip] == i ==>
                      RatesHold(rows[i], done, ToDevice(rows[i].ip), up, down, network, sources, byIP.Keys))
    && (forall i :: 0 <= i < |rows| && byIP[rows[i].ip] != i ==> rows[i].uploadRate == 0 && rows[i].downloadRate == 0)
  }

  /** The state of the loop over the connections: everything charged so far, nothing else. */
  ghost predicate RatesSoFar(initial: seq<Row>, rows: seq<Row>, byIP: map<string, nat>, local: Row,
                             gateway: (int, int), done: seq<Connection>, up: Connection -> int,
                             down: Connection -> int, network: Network, sources: set<string>) {
    && RowsSoFar(initial, rows, byIP, done, up, down, network, sources)
    && RateTotalsHold(rows, done, up, down, network, sources, byIP.Keys)
    && RatesHold(local, done, ToGateway, up, down, network, sources, byIP.Keys)
    && gateway == (Sum(done, up), Sum(done, down))
  }

  lemma RatesHoldStep(row: Row, connections: seq<Connection>, k: nat, account: Account, up: Connection -> int,
                      down: Connection -> int, network: Network, sources: set<string>, ips: set<string>)
    requires k < |connections| && RatesHold(row, connections[..k], account, up, down, network, sources, ips)
    ensures var mine := Classify(connections[k], network, sources, ips) == account;
            RatesHold(if mine then Rated(row, up(connections[k]), down(connections[k]))
                      else row, connections[..k + 1], account, up, down, network, sources, ips)
  {
    hide Classify, Charged;
    ChargedStep(connections, k, account, up, network, sources, ips);
    ChargedStep(connections, k, account, down, network, sources, ips);
  }

  lemma RateTotalsStep(rows: seq<Row>, connections: seq<Connection>, k: nat, i: nat, up: Connection -> int,
                       down: Connection -> int, network: Network, sources: set<string>, ips: set<string>)
    requires k < |connections| && RateTotalsHold(rows, connections[..k], up, down, network, sources, ips)
    ensures !Classify(connections[k], network, sources, ips).ToDevice? ==>
              RateTotalsHold(rows, connections[..k + 1], up, down, network, sources, ips)
    ensures Classify(connections[k], network, sources, ips).ToDevice? && i < |rows| ==>
              RateTotalsHold(rows[i := Rated(rows[i], up(connections[k]), down(connections[k]))], connections[..k + 1],
                             up, down, network, sources, ips)
  {
    hide Classify;
    assert connections[..k + 1][..k] == connections[..k];
    if i < |rows| {
      SumUpdate(rows, i, Rated(rows[i], up(connections[k]), down(connections[k])), ROW_UPLOAD_RATE);
      SumUpdate(rows, i, Rated(rows[i], up(connections[k]), down(connections[k])), ROW_DOWNLOAD_RATE);
    }
  }

  /** A connection is charged to the row its address leads to. */
  lemma RowsStep(initial: seq<Row>, rows: seq<Row>, byIP: map<string, nat>, connections: seq<Connection>, k: nat,
                 up: Connection -> int, down: Connection -> int, network: Network, sources: set<string>)
    requires k < |connections| && IndexOK(initial, byIP)
    requires RowsSoFar(initial, rows, byIP, connections[..k], up, down, network, sources)
    ensures var c := connections[k];
            match Classify(c, network, sources, byIP.Keys)
            case ToDevice(ip) =>
              && ip in byIP && byIP[ip] < |rows|
              && RowsSoFar(initial, rows[byIP[ip] := Rated(rows[byIP[ip]], up(c), down(c))], byIP,
                           connections[..k + 1], up, down, network, sources)
            case _ => RowsSoFar(initial, rows, byIP, connections[..k + 1], up, down, network, sources)
  {
    hide RatesHold;
    var c := connections[k];
    forall i | 0 <= i < |rows| && byIP[rows[i].ip] == i
      ensures var mine := Classify(c, network, sources, byIP.Keys) == ToDevice(rows[i].ip);
              RatesHold(if mine then Rated(rows[i], up(c), down(c))
                        else rows[i], connections[..k + 1], ToDevice(rows[i].ip), up, down, network, sources, byIP.Keys)
    {
      RatesHoldStep(rows[i], connections, k, ToDevice(rows[i].ip), up, down, network, sources, byIP.Keys);
    }
  }

  /** The next state of the loop. */
  lemma RatesStep(initial: seq<Row>, rows: seq<Row>, byIP: map<string, nat>, local: Row, gateway: (int, int),
                  connections: seq<Connection>, k: nat, up: Connection -> int, down: Connection -> int,
                  network: Network, sources: set<string>)
    requires k < |connections| && IndexOK(initial, byIP)
    requires RatesSoFar(initial, rows, byIP, local, gateway, connections[..k], up, down, network, sources)
    ensures var c := connections[k];
            var account := Classify(c, network, sources, byIP.Keys);
            var next := (gateway.0 + up(c), gateway.1 + down(c));
            match account
            case ToGateway => RatesSoFar(initial, rows, byIP, Rated(local, up(c), down(c)), next, connections[..k + 1],
                                         up, down, network, sources)
            case ToNobody => RatesSoFar(initial, rows, byIP, local, next, connections[..k + 1], up, down, network,
                                        sources)
            case ToDevice(ip) =>
              && ip in byIP && byIP[ip] < |rows|
              && RatesSoFar(initial, rows[byIP[ip] := Rated(rows[byIP[ip]], up(c), down(c))], byIP, local, next,
                            connections[..k + 1], up, down, network, sources)
  {
    hide RatesHold, RateTotalsHold, RowsSoFar, IndexOK, Rated;
    var c := connections[k];
    assert connections[..k + 1][..k] == connections[..k];
    RowsStep(initial, rows, byIP, connections, k, up, down, network, sources);
    RatesHoldStep(local, connections, k, ToGateway, up, down, network, sources, byIP.Keys);
    RateTotalsStep(rows, connections, k, if c.source in byIP then byIP[c.source] else 0, up, down, network, sources,
      byIP.Keys);
  }

  lemma NoRatesYet(response: Response, byIP: map<string, nat>, up: Connection -> int, down: Connection -> int,
      network: Network, sources: set<string>)
    requires NoRates(response) && IndexOK(response.devices, byIP)
    ensures RatesSoFar(response.devices, response.devices, byIP, response.local, (0, 0), [], up, down, network, sources)
  {
    SumZero(response.devices, ROW_UPLOAD_RATE);
    SumZero(response.devices, ROW_DOWNLOAD_RATE);
    forall i | 0 <= i < |response.devices|
      ensures RatesHold(response.devices[i], [], ToDevice(response.devices[i].ip), up, down, network, sources,
                        byIP.Keys)
    {
      assert response.devices[i] in response.devices;
    }
  }

  method AddRates(response: Response, snapshot: seq<Connection>, network: Network, previous: map<string, Counters>,
      elapsed: int, divide: Division)
    returns (out: Response)
    requires NoRates(response) && response.local.ip == network.gateway && "" !in Addresses(response.devices)
    ensures OnlyRatesDiffer(response, out) && NoNegativeRate(out)
    ensures ConservesRates(out, snapshot, UploadRate(previous, elapsed, divide),
                           DownloadRate(previous, elapsed, divide), network, LocalSources(snapshot, network))
  {
    hide RatesSoFar, IndexOK, LocalSources, Charged, Addresses, NoRates, NoNegativeRate, OnlyRatesDiffer,
      ConservesRates;
    ghost var up, down := UploadRate(previous, elapsed, divide), DownloadRate(previous, elapsed, divide);
    var byIP := IndexRows(response.devices);
    var sources := FindLocalSources(snapshot, network);
    var rows, local := response.devices, response.local;
    var gatewayUp, gatewayDown := 0, 0;
    NoRatesYet(response, byIP, up, down, network, sources);
    for k := 0 to |snapshot|
      invariant RatesSoFar(response.devices, rows, byIP, local, (gatewayUp, gatewayDown), snapshot[..k], up, down,
                           network, sources)
      invariant SameButRates(response.local, local)
    {
      var c := snapshot[k];
      RatesStep(response.devices, rows, byIP, local, (gatewayUp, gatewayDown), snapshot, k, up, down, network, sources);
      if c.id == "" || c.id !in previous {
        Unrated(rows, byIP, local, c, network, sources);
        continue;
      }
      var upload := BytesPerSecond(CounterDelta(c.upload, previous[c.id].upload), elapsed, divide);
      var download := BytesPerSecond(CounterDelta(c.download, previous[c.id].download), elapsed, divide);
      gatewayUp, gatewayDown := gatewayUp + upload, gatewayDown + download;
      if IsLocal(c, network, sources) {
        local := Rated(local, upload, download);
      } else if c.source in byIP {
        rows := rows[byIP[c.source] := Rated(rows[byIP[c.source]], upload, download)];
      }
    }
    assert snapshot[..|snapshot|] == snapshot;
    var totalUp, totalDown := 0, 0;
    for i := 0 to |rows|
      invariant totalUp == Sum(rows[..i], ROW_UPLOAD_RATE) && totalDown == Sum(rows[..i], ROW_DOWNLOAD_RATE)
    {
      assert rows[..i + 1][..i] == rows[..i];
      totalUp, totalDown := totalUp + rows[i].uploadRate, totalDown + rows[i].downloadRate;
    }
    assert rows[..|rows|] == rows;
    out := response.(local := local, devices := rows, gatewayUploadRate := gatewayUp,
                     gatewayDownloadRate := gatewayDown,
                     totals := response.totals.(uploadRate := totalUp, downloadRate := totalDown));
    Finished(response, out, byIP, snapshot, up, down, network, sources);
  }

  /** Adding no rate changes no row. */
  lemma Unrated(rows: seq<Row>, byIP: map<string, nat>, local: Row, c: Connection, network: Network,
      sources: set<string>)
    ensures Rated(local, 0, 0) == local
    ensures c.source in byIP && byIP[c.source] < |rows| ==>
              rows[byIP[c.source] := Rated(rows[byIP[c.source]], 0, 0)] == rows
  {
  }

  lemma Finished(response: Response, out: Response, byIP: map<string, nat>, snapshot: seq<Connection>,
                 up: Connection -> int, down: Connection -> int, network: Network, sources: set<string>)
    requires IndexOK(response.devices, byIP) && byIP.Keys == Addresses(response.devices) && NoRates(response)
    requires RatesSoFar(response.devices, out.devices, byIP, out.local,
                        (out.gatewayUploadRate, out.gatewayDownloadRate), snapshot, up, down, network, sources)
    requires out.totals.uploadRate == Sum(out.devices, ROW_UPLOAD_RATE)
             && out.totals.downloadRate == Sum(out.devices, ROW_DOWNLOAD_RATE)
    requires SameButRates(response.local, out.local) && (forall c :: up(c) >= 0 && down(c) >= 0)
    requires out == response.(local := out.local, devices := out.devices, gatewayUploadRate := out.gatewayUploadRate,
                              gatewayDownloadRate := out.gatewayDownloadRate,
                              totals := response.totals.(uploadRate := out.totals.uploadRate,
                                                         downloadRate := out.totals.downloadRate))
    ensures OnlyRatesDiffer(response, out)
    ensures ConservesRates(out, snapshot, up, down, network, sources)
    ensures NoNegativeRate(out)
  {
    hide RatesSoFar, OnlyRatesDiffer, ConservesRates, NoNegativeRate, IndexOK, NoRates, Addresses, SameButRates, Sum;
    StructureIsKept(response, out, byIP, snapshot, up, down, network, sources);
    DevicesHold(response, out, byIP, snapshot, up, down, network, sources);
    RatesAreConserved(response, out, byIP, snapshot, up, down, network, sources);
    NoneIsNegative(response, out, byIP, snapshot, up, down, network, sources);
  }

  lemma StructureIsKept(response: Response, out: Response, byIP: map<string, nat>, snapshot: seq<Connection>,
                        up: Connection -> int, down: Connection -> int, network: Network, sources: set<string>)
    requires RatesSoFar(response.devices, out.devices, byIP, out.local,
                        (out.gatewayUploadRate, out.gatewayDownloadRate), snapshot, up, down, network, sources)
    requires SameButRates(response.local, out.local)
    requires out == response.(local := out.local, devices := out.devices, gatewayUploadRate := out.gatewayUploadRate,
                              gatewayDownloadRate := out.gatewayDownloadRate,
                              totals := response.totals.(uploadRate := out.totals.uploadRate,
                                                         downloadRate := out.totals.downloadRate))
    ensures OnlyRatesDiffer(response, out) && Addresses(out.devices) == Addresses(response.devices)
  {
    hide RatesHold, RateTotalsHold, Addresses, Sum;
    SameAddresses(response.devices, out.devices);
  }

  lemma DevicesHold(response: Response, out: Response, byIP: map<string, nat>, snapshot: seq<Connection>,
                    up: Connection -> int, down: Connection -> int, network: Network, sources: set<string>)
    requires IndexOK(response.devices, byIP)
    requires RatesSoFar(response.devices, out.devices, byIP, out.local,
                        (out.gatewayUploadRate, out.gatewayDownloadRate), snapshot, up, down, network, sources)
    ensures forall row :: row in out.devices && DistinctRows(out.devices) ==>
                            RatesHold(row, snapshot, ToDevice(row.ip), up, down, network, sources, byIP.Keys)
  {
    hide RatesHold, RateTotalsHold, Sum;
    forall row | row in out.devices && DistinctRows(out.devices)
      ensures RatesHold(row, snapshot, ToDevice(row.ip), up, down, network, sources, byIP.Keys)
    {
      var i :| 0 <= i < |out.devices| && out.devices[i] == row;
      assert byIP[row.ip] == i;
    }
  }

  lemma RatesAreConserved(response: Response, out: Response, byIP: map<string, nat>, snapshot: seq<Connection>,
                          up: Connection -> int, down: Connection -> int, network: Network, sources: set<string>)
    requires RatesSoFar(response.devices, out.devices, byIP, out.local,
                        (out.gatewayUploadRate, out.gatewayDownloadRate), snapshot, up, down, network, sources)
    requires out.totals.uploadRate == Sum(out.devices, ROW_UPLOAD_RATE)
             && out.totals.downloadRate == Sum(out.devices, ROW_DOWNLOAD_RATE)
    requires byIP.Keys == Addresses(out.devices)
    requires forall row :: row in out.devices && DistinctRows(out.devices) ==>
                             RatesHold(row, snapshot, ToDevice(row.ip), up, down, network, sources, byIP.Keys)
    ensures ConservesRates(out, snapshot, up, down, network, sources)
  {
    hide Charged, ChargedToDevices, Sum, Addresses, SameButRates, DistinctRows;
    AccountsAreComplete(snapshot, up, network, sources, byIP.Keys);
    AccountsAreComplete(snapshot, down, network, sources, byIP.Keys);
  }

  lemma NoneIsNegative(response: Response, out: Response, byIP: map<string, nat>, snapshot: seq<Connection>,
                       up: Connection -> int, down: Connection -> int, network: Network, sources: set<string>)
    requires RatesSoFar(response.devices, out.devices, byIP, out.local,
                        (out.gatewayUploadRate, out.gatewayDownloadRate), snapshot, up, down, network, sources)
    requires out.totals.uploadRate == Sum(out.devices, ROW_UPLOAD_RATE)
             && out.totals.downloadRate == Sum(out.devices, ROW_DOWNLOAD_RATE)
    requires forall c :: up(c) >= 0 && down(c) >= 0
    ensures NoNegativeRate(out)
  {
    hide Charged, ChargedToDevices, Sum;
    ChargesAreNonNegative(response.devices, out.devices, byIP, snapshot, up, down, network, sources);
    ChargeIsNonNegative(snapshot, ToGateway, up, network, sources, byIP.Keys);
    ChargeIsNonNegative(snapshot, ToGateway, down, network, sources, byIP.Keys);
    SumNonNegative(snapshot, up);
    SumNonNegative(snapshot, down);
    SumNonNegative(out.devices, ROW_UPLOAD_RATE);
    SumNonNegative(out.devices, ROW_DOWNLOAD_RATE);
  }

  lemma SameAddresses(before: seq<Row>, after: seq<Row>)
    requires |after| == |before| && forall i :: 0 <= i < |after| ==> SameButRates(before[i], after[i])
    ensures Addresses(after) == Addresses(before)
  {
    forall row | row in before ensures row.ip in Addresses(after) {
      var i :| 0 <= i < |before| && before[i] == row;
      assert after[i].ip == row.ip;
    }
    forall row | row in after ensures row.ip in Addresses(before) {
      var i :| 0 <= i < |after| && after[i] == row;
      assert before[i].ip == row.ip;
    }
  }

  lemma ChargeIsNonNegative(connections: seq<Connection>, account: Account, measure: Connection -> int,
                            network: Network, sources: set<string>, ips: set<string>)
    requires forall c :: measure(c) >= 0
    ensures Charged(connections, account, measure, network, sources, ips) >= 0
  {
    SumNonNegative(connections,
      (c: Connection) => if Classify(c, network, sources, ips) == account then measure(c) else 0);
  }

  lemma ChargesAreNonNegative(initial: seq<Row>, rows: seq<Row>, byIP: map<string, nat>, connections: seq<Connection>,
                              up: Connection -> int, down: Connection -> int, network: Network, sources: set<string>)
    requires |rows| == |initial| && forall c :: up(c) >= 0 && down(c) >= 0
    requires forall i :: 0 <= i < |rows| ==> rows[i].ip in byIP
    requires forall i :: 0 <= i < |rows| && byIP[rows[i].ip] == i ==>
                           RatesHold(rows[i], connections, ToDevice(rows[i].ip), up, down, network, sources, byIP.Keys)
    requires forall i :: 0 <= i < |rows| && byIP[rows[i].ip] != i ==>
                           rows[i].uploadRate == 0 && rows[i].downloadRate == 0
    ensures forall row :: row in rows ==> row.uploadRate >= 0 && row.downloadRate >= 0
  {
    hide Charged;
    forall i | 0 <= i < |rows| ensures rows[i].uploadRate >= 0 && rows[i].downloadRate >= 0 {
      ChargeIsNonNegative(connections, ToDevice(rows[i].ip), up, network, sources, byIP.Keys);
      ChargeIsNonNegative(connections, ToDevice(rows[i].ip), down, network, sources, byIP.Keys);
    }
  }

  /** A response and its rates classify alike: what one poll leaves unclassified has no device's or
      the gateway's rate, and the next poll's rates add up to the gateway's. */
  method Poll(sampler: Sampler, leases: seq<Lease>, policy: seq<Managed>, snapshot: seq<Connection>, network: Network,
      observeLAN: bool, at: int)
    returns (response: Response)
    requires !network.onLAN("")
    modifies sampler
    ensures sampler.sampledAt == Some(at) && sampler.connections == Current(snapshot)
    ensures NoNegativeRate(response)
    ensures response.totals.active + response.local.active + response.unclassified == |snapshot|
    ensures old(sampler.Stale(at)) || (
              var elapsed := at - old(sampler.sampledAt).value;
              ConservesRates(response, snapshot, UploadRate(old(sampler.connections), elapsed, sampler.divide),
                             DownloadRate(old(sampler.connections), elapsed, sampler.divide),
                             network, LocalSources(snapshot, network)))
  {
    hide ConservesRates, LocalSources, Holds;
    var counted := Aggregate(leases, policy, snapshot, network, observeLAN);
    response := sampler.Annotate(counted, snapshot, network, at);
  }
}
