/**
 * deep_scan.go's DeepScan: the interface fallback, the discovery loop, the
 * probe of every discovered host, the progress estimate, the record each
 * probe yields, and the store writes and emit around them.
 */
module DeepScan {
  import opened Wrappers
  import opened Seqs
  import opened Records
  import opened Parsers
  import opened Payload
  import opened Remote
  import opened Emission
  import opened Store

  // ---------------------------------------------------------------- interfaces and discovery

  /** The interface scanned when detection fails. */
  const FallbackInterface: Interface := Interface("unknown", "192.168.2.0/24", "")

  /** The interfaces DeepScan scans: the detected ones, or the single fallback when detection fails. */
  function ScanInterfaces(detected: Result<seq<Interface>, string>): (r: seq<Interface>)
    ensures detected.Ok? ==> r == detected.value
    ensures detected.Err? ==> r == [FallbackInterface]
  {
    if detected.Ok? then detected.value else [FallbackInterface]
  }

  /** `hosts`, each given the interface name `name`. */
  function Tagged(hosts: seq<HostInfo>, name: string): (r: seq<HostInfo>)
    ensures |r| == |hosts|
    ensures forall i :: 0 <= i < |hosts| ==> r[i] == hosts[i].(interfaceName := name)
  {
    seq(|hosts|, i requires 0 <= i < |hosts| => hosts[i].(interfaceName := name))
  }

  /** The hosts one interface contributes: its sweep's hosts, tagged with its name; none when the sweep fails. */
  function InterfaceHosts(iface: Interface, sweep: string -> Result<string, string>): seq<HostInfo> {
    var out := sweep(iface.subnet);
    if out.Ok? then Tagged(SweepHosts(out.value), iface.name) else []
  }

  /** The hosts of each interface, in interface order. */
  function PerInterface(ifaces: seq<Interface>, sweep: string -> Result<string, string>): (r: seq<seq<HostInfo>>)
    ensures |r| == |ifaces|
    ensures forall i :: 0 <= i < |ifaces| ==> r[i] == InterfaceHosts(ifaces[i], sweep)
  {
    seq(|ifaces|, i requires 0 <= i < |ifaces| => InterfaceHosts(ifaces[i], sweep))
  }

  /** The hosts of every interface, interface after interface. */
  function Discovered(ifaces: seq<Interface>, sweep: string -> Result<string, string>): seq<HostInfo> {
    Flatten(PerInterface(ifaces, sweep))
  }

  /** The hosts of one interface carry its name, and there are none when its sweep fails. */
  lemma InterfaceHostsNames(iface: Interface, sweep: string -> Result<string, string>)
    ensures sweep(iface.subnet).Err? ==> InterfaceHosts(iface, sweep) == []
    ensures forall h :: h in InterfaceHosts(iface, sweep) ==> h.interfaceName == iface.name
  {
  }

  /**
   * A subnet whose sweep fails is skipped and the loop goes on: the result is
   * the discovery of the interfaces before it followed by that of the ones after.
   */
  lemma DiscoveredSkipsFailedSweep(ifaces: seq<Interface>, sweep: string -> Result<string, string>, i: nat)
    requires i < |ifaces| && sweep(ifaces[i].subnet).Err?
    ensures Discovered(ifaces, sweep) == Discovered(ifaces[..i], sweep) + Discovered(ifaces[i + 1..], sweep)
  {
    var ss := PerInterface(ifaces, sweep);
    assert ss[i] == [] by {
      InterfaceHostsNames(ifaces[i], sweep);
    }
    FlattenWithout(ss, i);
    assert PerInterface(ifaces[..i], sweep) == ss[..i] by {
      PerInterfaceSlice(ifaces, sweep, 0, i);
      assert ifaces[0..i] == ifaces[..i];
    }
    assert PerInterface(ifaces[i + 1..], sweep) == ss[i + 1..] by {
      PerInterfaceSlice(ifaces, sweep, i + 1, |ifaces|);
      assert ifaces[i + 1..|ifaces|] == ifaces[i + 1..];
    }
  }

  lemma PerInterfaceSlice(ifaces: seq<Interface>, sweep: string -> Result<string, string>, lo: nat, hi: nat)
    requires lo <= hi <= |ifaces|
    ensures PerInterface(ifaces[lo..hi], sweep) == PerInterface(ifaces, sweep)[lo..hi]
  {
  }

  /** Every discovered host carries the name of an interface whose sweep succeeded. */
  lemma DiscoveredInterfaceNames(ifaces: seq<Interface>, sweep: string -> Result<string, string>, h: HostInfo)
    requires h in Discovered(ifaces, sweep)
    ensures exists i :: 0 <= i < |ifaces| && sweep(ifaces[i].subnet).Ok? && h.interfaceName == ifaces[i].name
  {
    var ss := PerInterface(ifaces, sweep);
    FlattenMember(ss, h);
    var i :| 0 <= i < |ss| && h in ss[i];
    InterfaceHostsNames(ifaces[i], sweep);
  }

  /**
   * The discovery loop of DeepScan: sweep each interface's subnet, skip it when
   * the sweep fails, and collect its hosts with the interface name set.
   */
  method DiscoverAll(ifaces: seq<Interface>, sweep: string -> Result<string, string>) returns (hostInfos: seq<HostInfo>)
    ensures hostInfos == Discovered(ifaces, sweep)
  {
    hostInfos := [];
    ghost var ss := PerInterface(ifaces, sweep);
    for i := 0 to |ifaces|
      invariant hostInfos == Flatten(ss[..i])
    {
      assert ss[..i + 1] == ss[..i] + [ss[i]];
      FlattenSnoc(ss[..i], ss[i]);
      var tagged := DiscoverInterface(ifaces[i], sweep);
      hostInfos := hostInfos + tagged;
    }
    assert ss[..|ifaces|] == ss;
  }

  /** One pass of the discovery loop: the interface's hosts, tagged, or none when its sweep fails. */
  method DiscoverInterface(iface: Interface, sweep: string -> Result<string, string>) returns (tagged: seq<HostInfo>)
    ensures tagged == InterfaceHosts(iface, sweep)
  {
    tagged := [];
    var hosts := DiscoverLiveHosts(sweep(iface.subnet));
    if hosts.Err? {
      return;
    }
    tagged := TagHosts(hosts.value, iface.name);
  }

  /** The inner loop of the discovery loop: each host of the sweep gets the interface name. */
  method TagHosts(found: seq<HostInfo>, name: string) returns (tagged: seq<HostInfo>)
    ensures tagged == Tagged(found, name)
  {
    tagged := [];
    for j := 0 to |found|
      invariant tagged == Tagged(found[..j], name)
    {
      assert Tagged(found[..j + 1], name) == Tagged(found[..j], name) + [found[j].(interfaceName := name)];
      tagged := tagged + [found[j].(interfaceName := name)];
    }
    assert found[..|found|] == found;
  }

  // ---------------------------------------------------------------- progress estimate

  /**
   * The remaining-time estimate logged after host `idx` of `total`: the
   * average time per host so far, in whole duration units, times the hosts
   * after this one.
   */
  function EstimatedLeft(elapsed: nat, idx: nat, total: nat): (r: int)
    requires idx < total
  {
    (elapsed / (idx + 1)) * (total - (idx + 1))
  }

  /**
   * The estimate is never negative, is 0 for the last host, and never exceeds
   * what the elapsed time per finished host would project exactly.
   */
  lemma EstimatedLeftBounds(elapsed: nat, idx: nat, total: nat)
    requires idx < total
    ensures EstimatedLeft(elapsed, idx, total) >= 0
    ensures idx == total - 1 ==> EstimatedLeft(elapsed, idx, total) == 0
    ensures EstimatedLeft(elapsed, idx, total) * (idx + 1) <= elapsed * (total - (idx + 1))
  {
    var q := elapsed / (idx + 1);
    var left := total - (idx + 1);
    assert q * (idx + 1) <= elapsed;
    assert q * left * (idx + 1) == left * (q * (idx + 1));
    MulLeftMonotone(left, q * (idx + 1), elapsed);
  }

  lemma MulLeftMonotone(c: nat, x: int, y: int)
    requires x <= y
    ensures c * x <= c * y
  {
    assert c * y - c * x == c * (y - x);
  }

  // ---------------------------------------------------------------- one host

  /** What the probes of one host report: reverse DNS, nbtscan, the port scan, the ARP table and ping. */
  datatype Probe = Probe(
    dns: Result<seq<string>, string>,
    nbt: Result<string, string>,
    nmap: NmapRun,
    arp: Option<seq<string>>,
    status: string)

  /** The record DeepScan builds for one discovered host. */
  function DeepRecord(host: HostInfo, p: Probe, now: Time): HostRecord {
    var tcp := PortsOfRun(p.nmap);
    HostRecord(
      ip := host.ip, hostname := BestHostName(host.ip, host.name, p.dns, p.nbt),
      os := OsOfRun(p.nmap), mac := MacAddress(host.ip, p.arp),
      portSummary := tcp.summary, ports := tcp.ports,
      nextHop := "", networkName := "LAN", interfaceName := host.interfaceName,
      tags := [], note := "", metadata := map["scanner" := "deepscan"],
      lastSeen := now, onlineStatus := p.status)
  }

  /**
   * The summary and the ports of a deep-scan record come from one parse: the
   * summary is "Unknown" exactly when there are no ports, the stored summary
   * is the parsed one, and the name is never empty.
   */
  lemma DeepRecordConsistent(host: HostInfo, p: Probe, now: Time)
    ensures var r := DeepRecord(host, p, now);
      (r.portSummary == "Unknown" <==> r.ports == [])
      && PortsSummary(r) == r.portSummary
      && r.hostname != ""
      && '\t' !in r.os
  {
    RunResultShape(p.nmap);
  }

  /** The body of DeepScan's per-host goroutine, up to the record it builds. */
  method ProbeHost(host: HostInfo, p: Probe, now: Time) returns (record: HostRecord)
    ensures record == DeepRecord(host, p, now)
  {
    var ip := host.ip;
    var name := BestHostName(ip, host.name, p.dns, p.nbt);
    var tcpPorts, osInfo := ScanAllTcp(p.nmap);
    var mac := MacAddress(ip, p.arp);
    var status := p.status;
    record := HostRecord(
      ip := ip, hostname := name, os := osInfo, mac := mac,
      portSummary := tcpPorts.summary, ports := tcpPorts.ports,
      nextHop := "", networkName := "LAN", interfaceName := host.interfaceName,
      tags := [], note := "", metadata := map["scanner" := "deepscan"],
      lastSeen := now, onlineStatus := status);
  }

  // ---------------------------------------------------------------- the fan-out

  /** `order` lists each of the positions 0 .. n-1 exactly once. */
  predicate IndexPermutation(order: seq<nat>, n: nat) {
    |order| == n
    && (forall k :: 0 <= k < n ==> order[k] < n)
    && (forall k, l :: 0 <= k < l < n ==> order[k] != order[l])
    && (forall j :: 0 <= j < n ==> j in order)
  }

  /** The record each discovered host yields, by position. */
  function DeepRecords(hostInfos: seq<HostInfo>, probe: string -> Probe, now: Time): (r: seq<HostRecord>)
    ensures |r| == |hostInfos|
    ensures forall j :: 0 <= j < |hostInfos| ==> r[j] == DeepRecord(hostInfos[j], probe(hostInfos[j].ip), now)
  {
    seq(|hostInfos|, j requires 0 <= j < |hostInfos| => DeepRecord(hostInfos[j], probe(hostInfos[j].ip), now))
  }

  /** The batch holds the record of host `order[k]` at position `k`. */
  predicate ProbedInOrder(batch: seq<HostRecord>, order: seq<nat>, records: seq<HostRecord>) {
    |batch| == |order| && forall k :: 0 <= k < |order| ==> order[k] < |records| && batch[k] == records[order[k]]
  }

  /** The positions 0 .. n-1. */
  function Positions(n: nat): (r: set<nat>)
    ensures forall j: nat :: j in r <==> j < n
    ensures |r| == n
  {
    if n == 0 then {} else Positions(n - 1) + {n - 1}
  }

  /** The records of a batch whose upsert was not refused, in batch order. */
  function Accepted(batch: seq<HostRecord>, order: seq<nat>, refused: map<nat, string>): (r: seq<HostRecord>)
    requires |batch| == |order|
    ensures |r| <= |batch|
    decreases |batch|
  {
    if |batch| == 0 then []
    else
      Accepted(batch[..|batch| - 1], order[..|order| - 1], refused)
      + (if order[|order| - 1] in refused then [] else [batch[|batch| - 1]])
  }

  /** With no refusal every record of the batch is upserted. */
  lemma {:induction false} AcceptedAll(batch: seq<HostRecord>, order: seq<nat>)
    requires |batch| == |order|
    ensures Accepted(batch, order, map[]) == batch
    decreases |batch|
  {
    if |batch| > 0 {
      AcceptedAll(batch[..|batch| - 1], order[..|order| - 1]);
    }
  }

  /**
   * The goroutine fan-out as a sequential loop that may take the hosts in any
   * order: every host is probed once, its record appended to the batch and,
   * when the store is in use, upserted. `refused` maps the position of each
   * host whose upsert fails to its error; such a failure is only logged.
   */
  method ProbeAll(hostInfos: seq<HostInfo>, probe: string -> Probe, now: Time, db: LocalDb, useDb: bool,
                  refused: map<nat, string>)
    returns (batch: seq<HostRecord>, ghost order: seq<nat>)
    modifies db
    ensures IndexPermutation(order, |hostInfos|)
    ensures ProbedInOrder(batch, order, DeepRecords(hostInfos, probe, now))
    ensures Stored(db.hosts, old(db.hosts), batch, order, refused, useDb, now)
    ensures db.externalNetworks == old(db.externalNetworks)
  {
    var n := |hostInfos|;
    ghost var records := DeepRecords(hostInfos, probe, now);
    var pending := Positions(n);
    batch, order := [], [];
    while pending != {}
      invariant Scheduled(order, pending, n)
      invariant ProbedInOrder(batch, order, records)
      invariant Stored(db.hosts, old(db.hosts), batch, order, refused, useDb, now)
      invariant db.externalNetworks == old(db.externalNetworks)
      decreases pending
    {
      var idx :| idx in pending;
      var host := hostInfos[idx];
      var record := ProbeHost(host, probe(host.ip), now);
      assert record == records[idx];
      var refusal := if idx in refused then Some(refused[idx]) else None;
      ghost var before := db.hosts;
      StoreRecord(db, useDb, record, now, refusal);
      StoredSnoc(before, db.hosts, old(db.hosts), batch, order, record, idx, refused, useDb, now);
      ScheduledStep(order, pending, n, idx);
      batch, order := batch + [record], order + [idx];
      pending := pending - {idx};
    }
    ScheduledDone(order, n);
  }

  /**
   * The bookkeeping of the goroutines: each position is either still pending
   * or has finished, once, and the finished ones are listed in `order`.
   */
  ghost predicate Scheduled(order: seq<nat>, pending: set<nat>, n: nat) {
    (forall j :: j in pending ==> j < n)
    && (forall k :: 0 <= k < |order| ==> order[k] < n && order[k] !in pending)
    && (forall k, l :: 0 <= k < l < |order| ==> order[k] != order[l])
    && (forall j :: 0 <= j < n ==> j in pending || j in order)
    && |order| + |pending| == n
  }

  /** Finishing one pending position keeps the bookkeeping. */
  lemma ScheduledStep(order: seq<nat>, pending: set<nat>, n: nat, idx: nat)
    requires Scheduled(order, pending, n) && idx in pending
    ensures Scheduled(order + [idx], pending - {idx}, n)
  {
    var order', pending' := order + [idx], pending - {idx};
    assert |pending'| == |pending| - 1;
    forall j | 0 <= j < n ensures j in pending' || j in order' {
      if j !in pending' && j != idx {
        assert j in order;
        var k :| 0 <= k < |order| && order[k] == j;
        assert order'[k] == j;
      }
      if j == idx {
        assert order'[|order|] == j;
      }
    }
  }

  /** When nothing is pending, every position finished exactly once. */
  lemma ScheduledDone(order: seq<nat>, n: nat)
    requires Scheduled(order, {}, n)
    ensures IndexPermutation(order, n)
  {
  }

  /** The store write of one goroutine: upsert the record when the store is in use; a refusal is only logged. */
  method StoreRecord(db: LocalDb, useDb: bool, record: HostRecord, now: Time, refusal: Option<string>)
    modifies db
    ensures useDb && refusal.None? ==> db.hosts == UpsertRow(old(db.hosts), record, now)
    ensures !useDb || refusal.Some? ==> db.hosts == old(db.hosts)
    ensures db.externalNetworks == old(db.externalNetworks)
  {
    if useDb {
      var err := db.Upsert(record, now, refusal);
    }
  }

  /** The hosts table after the upserts of `batch`, starting from `t0`; untouched when the store is not in use. */
  predicate Stored(t: HostsTable, t0: HostsTable, batch: seq<HostRecord>, order: seq<nat>, refused: map<nat, string>,
                   useDb: bool, now: Time)
  {
    |batch| == |order| && t == (if useDb then UpsertAll(t0, Accepted(batch, order, refused), now) else t0)
  }

  lemma StoredSnoc(t: HostsTable, t': HostsTable, t0: HostsTable, batch: seq<HostRecord>, order: seq<nat>,
                   record: HostRecord, idx: nat, refused: map<nat, string>, useDb: bool, now: Time)
    requires Stored(t, t0, batch, order, refused, useDb, now)
    requires useDb && idx !in refused ==> t' == UpsertRow(t, record, now)
    requires !useDb || idx in refused ==> t' == t
    ensures Stored(t', t0, batch + [record], order + [idx], refused, useDb, now)
  {
    if useDb {
      var acc := Accepted(batch, order, refused);
      AcceptedSnoc(batch, order, record, idx, refused);
      if idx in refused {
        assert Accepted(batch + [record], order + [idx], refused) == acc;
      } else {
        assert Accepted(batch + [record], order + [idx], refused) == acc + [record];
        UpsertAllSnoc(t0, acc, record, now);
      }
    }
  }

  lemma AcceptedSnoc(batch: seq<HostRecord>, order: seq<nat>, record: HostRecord, idx: nat, refused: map<nat, string>)
    requires |batch| == |order|
    ensures Accepted(batch + [record], order + [idx], refused)
         == Accepted(batch, order, refused) + (if idx in refused then [] else [record])
  {
    assert (batch + [record])[..|batch|] == batch;
    assert (order + [idx])[..|order|] == order;
  }

  lemma UpsertAllSnoc(t: HostsTable, hs: seq<HostRecord>, h: HostRecord, now: Time)
    ensures UpsertAll(t, hs + [h], now) == UpsertRow(UpsertAll(t, hs, now), h, now)
  {
    assert (hs + [h])[..|hs|] == hs;
  }

  // ---------------------------------------------------------------- DeepScan

  datatype DeepScanOptions = DeepScanOptions(skipDb: bool, remote: EmitOptions)

  /** Everything a deep scan reads from the outside world. */
  datatype DeepScanEnv = DeepScanEnv(
    interfaces: Result<seq<Interface>, string>,
    sweep: string -> Result<string, string>,
    probe: string -> Probe,
    now: Time,
    dbOpenError: Option<string>,
    refused: map<nat, string>,
    reply: Reply)

  /**
   * DeepScan. When the store is in use and cannot be opened, the error is
   * returned before any host is probed. Otherwise every host is offline in the
   * store before the probes start, every discovered host is probed once and
   * its record upserted unless refused, and the batch is emitted.
   */
  method DeepScan(opts: DeepScanOptions, env: DeepScanEnv, db: LocalDb)
    returns (err: Option<string>, hostInfos: seq<HostInfo>, batch: seq<HostRecord>, emission: Option<HostsEmission>,
             ghost order: seq<nat>)
    modifies db
    ensures hostInfos == Discovered(ScanInterfaces(env.interfaces), env.sweep)
    ensures !opts.skipDb && env.dbOpenError.Some? ==>
      err == env.dbOpenError && batch == [] && emission == None
      && db.hosts == old(db.hosts) && db.externalNetworks == old(db.externalNetworks)
    ensures opts.skipDb || env.dbOpenError.None? ==>
      IndexPermutation(order, |hostInfos|) && ProbedInOrder(batch, order, DeepRecords(hostInfos, env.probe, env.now))
      && emission.Some? && EmitsBatch(emission.value, batch, opts.remote, env.reply)
      && err == EmitError(emission.value)
    ensures opts.skipDb ==> db.hosts == old(db.hosts)
    ensures !opts.skipDb && env.dbOpenError.None? ==>
      db.hosts == UpsertAll(AllOffline(old(db.hosts)), Accepted(batch, order, env.refused), env.now)
    ensures db.externalNetworks == old(db.externalNetworks)
  {
    var ifaces := ScanInterfaces(env.interfaces);
    hostInfos := DiscoverAll(ifaces, env.sweep);
    if !opts.skipDb {
      if env.dbOpenError.Some? {
        return env.dbOpenError, hostInfos, [], None, [];
      }
      db.MarkAllOffline();
    }
    batch, order := ProbeAll(hostInfos, env.probe, env.now, db, !opts.skipDb, env.refused);
    var e, emitErr := EmitHosts(batch, opts.remote, env.reply);
    err, emission := emitErr, Some(e);
  }
}
