/**
 * fastscan.go: the default-gateway lookup, the ping sweep keyed by address,
 * the records a fast scan builds, the external-address update and the order
 * of FastScan's steps.
 */
module FastScan {
  import opened Wrappers
  import opened Text
  import opened Seqs
  import opened Records
  import opened Parsers
  import opened Payload
  import opened Remote
  import opened Emission
  import opened Store

  // ---------------------------------------------------------------- default gateway

  /** No "via" among the first `n` fields. */
  predicate NoViaBefore(fields: seq<string>, n: int) {
    forall j :: 0 <= j < n && j < |fields| ==> fields[j] != "via"
  }

  /** The token after the first "via" that has a token after it. */
  function ViaToken(fields: seq<string>): (r: Option<string>)
    ensures r.None? <==> NoViaBefore(fields, |fields| - 1)
    ensures r.Some? ==> exists i :: 0 <= i < |fields| - 1 && fields[i] == "via" && fields[i + 1] == r.value
                                    && NoViaBefore(fields, i)
    decreases |fields|
  {
    if |fields| < 2 then None
    else if fields[0] == "via" then Some(fields[1])
    else
      var r := ViaToken(fields[1..]);
      assert forall i :: 1 <= i < |fields| ==> fields[i] == fields[1..][i - 1];
      r
  }

  /** The gateway a route line names: a "default" line with a "via" token. */
  function GatewayOf(line: string): Option<string> {
    if HasPrefix(line, "default") then ViaToken(Fields(line)) else None
  }

  /** No route line before the `n`-th names a gateway. */
  predicate NoGatewayBefore(lines: seq<string>, n: int) {
    forall i :: 0 <= i < n && i < |lines| ==> GatewayOf(lines[i]).None?
  }

  const NoGateway: string := "no default gateway found"

  /** getDefaultGateway on the output of `ip route`. */
  function DefaultGateway(out: Result<string, string>): (r: Result<string, string>)
    ensures out.Err? ==> r == Err(out.error)
    ensures out.Ok? && r.Err? ==> r.error == NoGateway
  {
    match out
    case Err(e) => Err(e)
    case Ok(text) =>
      match FirstSome(Split(text, '\n'), GatewayOf)
      case Some(gateway) => Ok(gateway)
      case None => Err(NoGateway)
  }

  /**
   * The gateway is the one named by the first "default" line that names one;
   * the lookup fails exactly when no line names one.
   */
  lemma DefaultGatewayFirstMatch(text: string)
    ensures var lines := Split(text, '\n');
      (DefaultGateway(Ok(text)).Err? <==> NoGatewayBefore(lines, |lines|))
      && (DefaultGateway(Ok(text)).Ok? ==>
            exists k :: (0 <= k < |lines| && HasPrefix(lines[k], "default")
              && GatewayOf(lines[k]) == Some(DefaultGateway(Ok(text)).value) && NoGatewayBefore(lines, k)))
  {
    var lines := Split(text, '\n');
    var k := FirstIndex(lines, GatewayOf);
    if k >= 0 {
      assert HasPrefix(lines[k], "default") && GatewayOf(lines[k]) == Some(DefaultGateway(Ok(text)).value);
      assert NoGatewayBefore(lines, k);
    }
  }

  /** A route line without a gateway is skipped; a line with one ends the search. */
  lemma DefaultGatewayFirstLine(line: string, rest: string)
    requires '\n' !in line
    ensures GatewayOf(line).None? ==> DefaultGateway(Ok(line + "\n" + rest)) == DefaultGateway(Ok(rest))
    ensures GatewayOf(line).Some? ==> DefaultGateway(Ok(line + "\n" + rest)) == Ok(GatewayOf(line).value)
  {
    SplitAround(line, rest, '\n');
    SplitNoSeparator(line, '\n');
    FirstSomeCons(line, Split(rest, '\n'), GatewayOf);
  }

  /** "default via 192.168.1.1 dev eth0" names 192.168.1.1. */
  lemma GatewayExample(line: string)
    requires HasPrefix(line, "default")
    requires Fields(line) == ["default", "via", "192.168.1.1", "dev", "eth0"]
    ensures GatewayOf(line) == Some("192.168.1.1")
  {
    var f := Fields(line);
    assert f[1..][0] == "via" && f[1..][1] == "192.168.1.1";
    assert ViaToken(f[1..]) == Some("192.168.1.1");
  }

  /** "default dev wg0" names no gateway, so the search moves on. */
  lemma GatewayWithoutVia(line: string)
    requires Fields(line) == ["default", "dev", "wg0"]
    ensures GatewayOf(line) == None
  {
    var f := Fields(line);
    assert f[1..] == ["dev", "wg0"] && f[1..][1..] == ["wg0"];
  }

  // ---------------------------------------------------------------- runNmap

  /** The sweep's hosts as a map from address to name; a later report for an address overwrites. */
  function SweepMap(hosts: seq<HostInfo>): (m: map<string, string>)
    decreases |hosts|
  {
    if |hosts| == 0 then map[]
    else SweepMap(hosts[..|hosts| - 1])[hosts[|hosts| - 1].ip := hosts[|hosts| - 1].name]
  }

  lemma SweepMapSnoc(hosts: seq<HostInfo>, h: HostInfo)
    ensures SweepMap(hosts + [h]) == SweepMap(hosts)[h.ip := h.name]
  {
    assert (hosts + [h])[..|hosts|] == hosts;
  }

  /**
   * An address is in the map exactly when some report names it, and it maps to
   * the name in the last report that names it.
   */
  lemma {:induction false} SweepMapLastWins(hosts: seq<HostInfo>, ip: string)
    ensures ip in SweepMap(hosts) <==> exists i :: 0 <= i < |hosts| && hosts[i].ip == ip
    ensures forall i :: (0 <= i < |hosts| && hosts[i].ip == ip && (forall j :: i < j < |hosts| ==> hosts[j].ip != ip)
      ==> SweepMap(hosts)[ip] == hosts[i].name)
    decreases |hosts|
  {
    if |hosts| > 0 {
      var init := hosts[..|hosts| - 1];
      SweepMapLastWins(init, ip);
      assert forall i :: 0 <= i < |init| ==> init[i] == hosts[i];
    }
  }

  /** runNmap: the same report lines as discoverLiveHosts, gathered into a map. */
  method RunNmap(out: Result<string, string>) returns (r: Result<map<string, string>, string>)
    ensures out.Err? ==> r == Err(out.error)
    ensures out.Ok? ==> r == Ok(SweepMap(SweepHosts(out.value)))
  {
    if out.Err? {
      return Err(out.error);
    }
    var lines := Split(out.value, '\n');
    var hosts := SweepLines(lines);
    LinesSweepIsSweepMap(lines);
    return Ok(hosts);
  }

  /** runNmap's loop over the output's lines. */
  method SweepLines(lines: seq<string>) returns (hosts: map<string, string>)
    ensures hosts == LinesSweep(lines)
  {
    hosts := map[];
    for i := 0 to |lines|
      invariant hosts == LinesSweep(lines[..i])
    {
      assert lines[..i + 1][..i] == lines[..i];
      hosts := RecordSweepLine(lines[i], hosts);
    }
    assert lines[..|lines|] == lines;
  }

  /** One line of runNmap's loop: a report line of either shape writes its address and name. */
  function SweepStep(m: map<string, string>, line: string): map<string, string> {
    match ReportLine(line)
    case Some(h) => m[h.ip := h.name]
    case None => m
  }

  /** runNmap's loop over `lines`, starting from the empty map. */
  function LinesSweep(lines: seq<string>): map<string, string>
    decreases |lines|
  {
    if |lines| == 0 then map[] else SweepStep(LinesSweep(lines[..|lines| - 1]), lines[|lines| - 1])
  }

  /** The loop builds the sweep map of the report lines' hosts. */
  lemma {:induction false} LinesSweepIsSweepMap(lines: seq<string>)
    ensures LinesSweep(lines) == SweepMap(FilterMap(lines, ReportLine))
    decreases |lines|
  {
    if |lines| > 0 {
      var init, last := lines[..|lines| - 1], lines[|lines| - 1];
      LinesSweepIsSweepMap(init);
      assert lines == init + [last];
      FilterMapSnoc(init, last, ReportLine);
      var before := FilterMap(init, ReportLine);
      assert LinesSweep(lines) == SweepStep(SweepMap(before), last);
      match ReportLine(last) {
        case Some(h) =>
          assert FilterMap(lines, ReportLine) == before + [h];
          SweepMapSnoc(before, h);
        case None =>
          assert FilterMap(lines, ReportLine) == before;
      }
    }
  }

  /** The body of runNmap's loop. */
  method RecordSweepLine(line: string, hosts: map<string, string>) returns (hosts': map<string, string>)
    ensures hosts' == SweepStep(hosts, line)
  {
    hosts' := hosts;
    if HasPrefix(line, ReportPrefix) {
      var fields := Fields(line);
      if |fields| == 6 && HasPrefix(fields[5], "(") {
        var name := fields[4];
        var ip := Trim(fields[5], "()");
        assert ReportLine(line) == Some(HostInfo(ip, name, ""));
        hosts' := hosts[ip := name];
      } else if |fields| == 5 {
        var ip := fields[4];
        assert ReportLine(line) == Some(HostInfo(ip, "NoName", ""));
        hosts' := hosts[ip := "NoName"];
      } else {
        assert ReportLine(line) == None;
      }
    } else {
      assert ReportLine(line) == None;
    }
  }

  // ---------------------------------------------------------------- fastScanCore

  /** The record a fast scan builds for one swept address. */
  function FastRecord(ip: string, name: string, iface: Interface, gateway: string, now: Time): (r: HostRecord)
    ensures r.ip == ip && r.hostname == name && r.interfaceName == iface.name
    ensures r.os == "Unknown" && r.mac == "Unknown" && r.portSummary == "Unknown" && r.ports == []
    ensures r.nextHop == gateway && r.networkName == "LAN" && r.onlineStatus == "online" && r.lastSeen == now
    ensures "scanner" in r.metadata && r.metadata["scanner"] == "fastscan"
    ensures "subnet" in r.metadata && r.metadata["subnet"] == iface.subnet
    ensures "gateway_ip" in r.metadata <==> gateway != ""
    ensures gateway != "" ==> r.metadata["gateway_ip"] == gateway
    ensures r.metadata.Keys <= {"scanner", "subnet", "gateway_ip"}
  {
    var meta := map["scanner" := "fastscan", "subnet" := iface.subnet];
    HostRecord(
      ip := ip, hostname := name, os := "Unknown", mac := "Unknown", portSummary := "Unknown", ports := [],
      nextHop := gateway, networkName := "LAN", interfaceName := iface.name, tags := [], note := "",
      metadata := if gateway != "" then meta["gateway_ip" := gateway] else meta,
      lastSeen := now, onlineStatus := "online")
  }

  /**
   * A fast-scan record is stored with "Unknown" open ports, and is sent without
   * ports but with its scanner, subnet and interface in the metadata.
   */
  lemma FastRecordProjection(ip: string, name: string, iface: Interface, gateway: string, now: Time)
    ensures PortsSummary(FastRecord(ip, name, iface, gateway, now)) == "Unknown"
    ensures ToRemoteHostPayload(FastRecord(ip, name, iface, gateway, now)).ports.None?
    ensures var p := ToRemoteHostPayload(FastRecord(ip, name, iface, gateway, now));
      p.metadata.Some? && p.metadata.value["scanner"] == "fastscan" && p.metadata.value["network_name"] == "LAN"
      && (iface.name != "" ==> p.metadata.value[InterfaceKey] == iface.name)
      && (gateway != "" ==> p.metadata.value[NextHopKey] == gateway)
  {
    var r := FastRecord(ip, name, iface, gateway, now);
    assert "scanner" in MergedMetadata(r);
  }

  /** The records of one interface's sweep, as a set (the sweep map has no order). */
  function InterfaceRecords(iface: Interface, m: map<string, string>, gateway: string, now: Time): set<HostRecord> {
    set ip | ip in m :: FastRecord(ip, m[ip], iface, gateway, now)
  }

  lemma InterfaceRecordsAdd(iface: Interface, m: map<string, string>, ip: string, name: string, gateway: string, now: Time)
    requires ip !in m
    ensures InterfaceRecords(iface, m[ip := name], gateway, now)
         == InterfaceRecords(iface, m, gateway, now) + {FastRecord(ip, name, iface, gateway, now)}
  {
    var m' := m[ip := name];
    forall x | x in InterfaceRecords(iface, m', gateway, now)
      ensures x in InterfaceRecords(iface, m, gateway, now) + {FastRecord(ip, name, iface, gateway, now)}
    {
      var a :| a in m' && x == FastRecord(a, m'[a], iface, gateway, now);
      if a != ip {
        assert x in InterfaceRecords(iface, m, gateway, now);
      }
    }
    forall x | x in InterfaceRecords(iface, m, gateway, now)
      ensures x in InterfaceRecords(iface, m', gateway, now)
    {
      var a :| a in m && x == FastRecord(a, m[a], iface, gateway, now);
      assert a in m' && m'[a] == m[a];
    }
    assert FastRecord(ip, name, iface, gateway, now) in InterfaceRecords(iface, m', gateway, now) by {
      assert ip in m' && m'[ip] == name;
    }
  }

  /** `seg` lists exactly the records of `m`, one per address. */
  predicate ListsSweep(seg: seq<HostRecord>, iface: Interface, m: map<string, string>, gateway: string, now: Time) {
    |seg| == |m| && (set x | x in seg) == InterfaceRecords(iface, m, gateway, now)
  }

  /** The inner loop of fastScanCore: one record per swept address, in the map's (arbitrary) order. */
  method InterfaceBatch(iface: Interface, m: map<string, string>, gateway: string, now: Time)
    returns (seg: seq<HostRecord>)
    ensures ListsSweep(seg, iface, m, gateway, now)
  {
    seg := [];
    var pending := m.Keys;
    while pending != {}
      invariant pending <= m.Keys
      invariant |seg| + |pending| == |m|
      invariant (set x | x in seg) == InterfaceRecords(iface, m - pending, gateway, now)
      decreases pending
    {
      var ip :| ip in pending;
      var record := FastRecord(ip, m[ip], iface, gateway, now);
      assert m - (pending - {ip}) == (m - pending)[ip := m[ip]];
      InterfaceRecordsAdd(iface, m - pending, ip, m[ip], gateway, now);
      assert (set x | x in seg + [record]) == (set x | x in seg) + {record};
      seg := seg + [record];
      pending := pending - {ip};
    }
    assert m - {} == m;
  }

  /** The sweep map of an interface, or None when its sweep fails. */
  function SubnetSweep(iface: Interface, sweep: string -> Result<string, string>): Option<map<string, string>> {
    var out := sweep(iface.subnet);
    if out.Ok? then Some(SweepMap(SweepHosts(out.value))) else None
  }

  /** The gateway a scan records: the one `ip route` names, or "" when the lookup fails. */
  function GatewayOrEmpty(ipRoute: Result<string, string>): (g: string)
    ensures DefaultGateway(ipRoute).Err? ==> g == ""
    ensures DefaultGateway(ipRoute).Ok? ==> g == DefaultGateway(ipRoute).value
  {
    match DefaultGateway(ipRoute)
    case Ok(gw) => gw
    case Err(_) => ""
  }

  /** The sweep map of every interface, in interface order. */
  ghost function Sweeps(ifaces: seq<Interface>, sweep: string -> Result<string, string>): (r: seq<Option<map<string, string>>>)
    ensures |r| == |ifaces|
    ensures forall i :: 0 <= i < |ifaces| ==> r[i] == SubnetSweep(ifaces[i], sweep)
  {
    seq(|ifaces|, i requires 0 <= i < |ifaces| => SubnetSweep(ifaces[i], sweep))
  }

  /** `seg` is what one interface contributes: nothing when its sweep failed, else its listing. */
  ghost predicate SegmentFor(seg: seq<HostRecord>, iface: Interface, sm: Option<map<string, string>>,
                             gateway: string, now: Time)
  {
    match sm
    case None => seg == []
    case Some(m) => ListsSweep(seg, iface, m, gateway, now)
  }

  /** Each of `segs` is what the interface at its position contributes. */
  ghost predicate SegmentsFor(segs: seq<seq<HostRecord>>, ifaces: seq<Interface>, sms: seq<Option<map<string, string>>>,
                              gateway: string, now: Time)
  {
    |segs| <= |ifaces| == |sms| && forall j :: 0 <= j < |segs| ==> SegmentFor(segs[j], ifaces[j], sms[j], gateway, now)
  }

  lemma SegmentsForSnoc(segs: seq<seq<HostRecord>>, seg: seq<HostRecord>, ifaces: seq<Interface>,
                        sms: seq<Option<map<string, string>>>, gateway: string, now: Time)
    requires SegmentsFor(segs, ifaces, sms, gateway, now) && |segs| < |ifaces|
    requires SegmentFor(seg, ifaces[|segs|], sms[|segs|], gateway, now)
    ensures SegmentsFor(segs + [seg], ifaces, sms, gateway, now)
  {
    var segs' := segs + [seg];
    forall j | 0 <= j < |segs'|
      ensures SegmentFor(segs'[j], ifaces[j], sms[j], gateway, now)
    {
      if j < |segs| {
        assert segs'[j] == segs[j];
      }
    }
  }

  /**
   * `discovered` is the concatenation of one listing per interface, in
   * interface order; an interface whose sweep fails contributes nothing.
   */
  ghost predicate CoreResult(discovered: seq<HostRecord>, ifaces: seq<Interface>, ipRoute: Result<string, string>,
                             sweep: string -> Result<string, string>, now: Time)
  {
    exists segs: seq<seq<HostRecord>> ::
      |segs| == |ifaces| && discovered == Flatten(segs)
      && SegmentsFor(segs, ifaces, Sweeps(ifaces, sweep), GatewayOrEmpty(ipRoute), now)
  }

  /** One pass of fastScanCore's interface loop: sweep the subnet; on failure skip the interface. */
  method InterfaceSegment(iface: Interface, sweep: string -> Result<string, string>, gateway: string, now: Time)
    returns (seg: seq<HostRecord>)
    ensures SegmentFor(seg, iface, SubnetSweep(iface, sweep), gateway, now)
  {
    var hosts := RunNmap(sweep(iface.subnet));
    if hosts.Err? {
      return [];
    }
    seg := InterfaceBatch(iface, hosts.value, gateway, now);
  }

  const InterfacesFailed: string := "failed to detect network interfaces: "

  /**
   * fastScanCore. `interfaces` is the interface detection, `ipRoute` the output
   * of `ip route`, `sweep` the `nmap -sn` output per subnet and `now` the clock.
   */
  method FastScanCore(interfaces: Result<seq<Interface>, string>, ipRoute: Result<string, string>,
                      sweep: string -> Result<string, string>, now: Time)
    returns (r: Result<seq<HostRecord>, string>)
    ensures interfaces.Err? ==> r == Err(InterfacesFailed + interfaces.error)
    ensures interfaces.Ok? ==> r.Ok? && CoreResult(r.value, interfaces.value, ipRoute, sweep, now)
  {
    if interfaces.Err? {
      return Err(InterfacesFailed + interfaces.error);
    }
    var ifaces := interfaces.value;
    var gw := DefaultGateway(ipRoute);
    var gatewayIp := if gw.Ok? then gw.value else "";
    assert gatewayIp == GatewayOrEmpty(ipRoute);
    var discovered: seq<HostRecord> := [];
    ghost var segs: seq<seq<HostRecord>> := [];
    ghost var sms := Sweeps(ifaces, sweep);
    for i := 0 to |ifaces|
      invariant |segs| == i && discovered == Flatten(segs)
      invariant SegmentsFor(segs, ifaces, sms, gatewayIp, now)
    {
      var seg := InterfaceSegment(ifaces[i], sweep, gatewayIp, now);
      SegmentsForSnoc(segs, seg, ifaces, sms, gatewayIp, now);
      FlattenSnoc(segs, seg);
      discovered := discovered + seg;
      segs := segs + [seg];
    }
    assert CoreResult(discovered, ifaces, ipRoute, sweep, now) by {
      assert |segs| == |ifaces| && discovered == Flatten(segs);
    }
    return Ok(discovered);
  }

  // ---------------------------------------------------------------- external address

  const ExternalIpUrls: seq<string> := ["https://ifconfig.me", "https://api.ipify.org"]

  /** A service's raw answer, when the fetch succeeds with a non-empty body. */
  function RawAnswer(fetch: string -> Result<string, string>, url: string): Option<string> {
    var out := fetch(url);
    if out.Ok? && |out.value| > 0 then Some(out.value) else None
  }

  /** The external address updateExternalIPInDB settles on, or "" when it finds none. */
  function ExternalIp(fetch: string -> Result<string, string>): string {
    match FirstSome(ExternalIpUrls, url => RawAnswer(fetch, url))
    case Some(raw) => TrimSpace(raw)
    case None => ""
  }

  /**
   * The services are asked in order, and the first non-empty answer ends the
   * search even when it is only white space (then no address is recorded).
   */
  lemma ExternalIpOrder(fetch: string -> Result<string, string>)
    ensures RawAnswer(fetch, ExternalIpUrls[0]).Some? ==> ExternalIp(fetch) == TrimSpace(fetch(ExternalIpUrls[0]).value)
    ensures RawAnswer(fetch, ExternalIpUrls[0]).None? && RawAnswer(fetch, ExternalIpUrls[1]).Some? ==>
      ExternalIp(fetch) == TrimSpace(fetch(ExternalIpUrls[1]).value)
    ensures RawAnswer(fetch, ExternalIpUrls[0]).None? && RawAnswer(fetch, ExternalIpUrls[1]).None? ==>
      ExternalIp(fetch) == ""
  {
    var f := url => RawAnswer(fetch, url);
    FirstSomeCons(ExternalIpUrls[0], ExternalIpUrls[1..], f);
    FirstSomeCons(ExternalIpUrls[1], [], f);
    assert ExternalIpUrls == [ExternalIpUrls[0]] + ExternalIpUrls[1..];
    assert ExternalIpUrls[1..] == [ExternalIpUrls[1]] + [];
  }

  /** The search loop of updateExternalIPInDB. */
  method SelectExternalIp(fetch: string -> Result<string, string>) returns (ip: string)
    ensures ip == ExternalIp(fetch)
  {
    ExternalIpOrder(fetch);
    ip := "";
    var urls := ExternalIpUrls;
    var i := 0;
    while i < |urls|
      invariant 0 <= i <= |urls|
      invariant ip == ""
      invariant forall j :: 0 <= j < i ==> RawAnswer(fetch, urls[j]).None?
    {
      var out := fetch(urls[i]);
      if out.Ok? && |out.value| > 0 {
        ip := TrimSpace(out.value);
        return;
      }
      i := i + 1;
    }
  }

  /**
   * updateExternalIPInDB: record the external address, touching its last_seen,
   * when one is found and the store opens; the hosts table is never touched.
   */
  method UpdateExternalIpInDb(db: LocalDb, fetch: string -> Result<string, string>, openError: Option<string>, now: Time)
    modifies db
    ensures ExternalIp(fetch) != "" && openError.None? ==>
      db.externalNetworks == old(db.externalNetworks)[ExternalIp(fetch) := now]
    ensures ExternalIp(fetch) == "" || openError.Some? ==> db.externalNetworks == old(db.externalNetworks)
    ensures db.hosts == old(db.hosts)
  {
    var ip := SelectExternalIp(fetch);
    if ip == "" {
      return;
    }
    if openError.Some? {
      return;
    }
    db.RecordExternalIp(ip, now);
  }

  // ---------------------------------------------------------------- FastScan

  datatype FastScanOptions = FastScanOptions(skipDb: bool, remote: EmitOptions)

  /** Everything a fast scan reads from the outside world. */
  datatype FastScanEnv = FastScanEnv(
    interfaces: Result<seq<Interface>, string>,
    ipRoute: Result<string, string>,
    sweep: string -> Result<string, string>,
    now: Time,
    dbOpenError: Option<string>,
    refused: map<nat, string>,
    fetch: string -> Result<string, string>,
    reply: Reply)

  /** The side effects FastScan performs, in the order it performs them. */
  datatype Step = HostsSaved | ExternalIpUpdated | Emitted(emission: HostsEmission)

  /** The error SaveHostsToDB returns for a batch. */
  function SaveError(hs: seq<HostRecord>, env: FastScanEnv): Option<string> {
    if |hs| == 0 then None
    else if env.dbOpenError.Some? then env.dbOpenError
    else if FirstRefused(|hs|, env.refused) < |hs| then Some(env.refused[FirstRefused(|hs|, env.refused)])
    else None
  }

  /**
   * FastScan: the core scan; then, unless the store is skipped, the save and the
   * external-address update; then the emit. A core error returns before any
   * write, and a save error before the update and the emit.
   */
  method FastScan(opts: FastScanOptions, env: FastScanEnv, db: LocalDb)
    returns (err: Option<string>, hosts: seq<HostRecord>, steps: seq<Step>)
    modifies db
    ensures env.interfaces.Err? ==>
      err == Some(InterfacesFailed + env.interfaces.error) && steps == []
      && db.hosts == old(db.hosts) && db.externalNetworks == old(db.externalNetworks)
    ensures env.interfaces.Ok? ==> CoreResult(hosts, env.interfaces.value, env.ipRoute, env.sweep, env.now)
    ensures env.interfaces.Ok? && opts.skipDb ==>
      db.hosts == old(db.hosts) && db.externalNetworks == old(db.externalNetworks)
      && |steps| == 1 && EmitStep(steps[0], hosts, opts.remote, env.reply) && err == EmitError(steps[0].emission)
    ensures env.interfaces.Ok? && !opts.skipDb && SaveError(hosts, env).Some? ==>
      steps == [HostsSaved] && err == SaveError(hosts, env) && db.externalNetworks == old(db.externalNetworks)
    ensures env.interfaces.Ok? && !opts.skipDb && SaveError(hosts, env).None? ==>
      |steps| == 3 && steps[0] == HostsSaved && steps[1] == ExternalIpUpdated
      && EmitStep(steps[2], hosts, opts.remote, env.reply) && err == EmitError(steps[2].emission)
      && db.externalNetworks == (if ExternalIp(env.fetch) != "" && env.dbOpenError.None?
                                 then old(db.externalNetworks)[ExternalIp(env.fetch) := env.now]
                                 else old(db.externalNetworks))
    ensures env.interfaces.Ok? && !opts.skipDb && env.dbOpenError.None? ==>
      db.hosts == SavedTable(old(db.hosts), hosts, env.now, env.refused)
    ensures env.interfaces.Ok? && !opts.skipDb && env.dbOpenError.Some? ==> db.hosts == old(db.hosts)
  {
    var core := FastScanCore(env.interfaces, env.ipRoute, env.sweep, env.now);
    if core.Err? {
      return Some(core.error), [], [];
    }
    hosts := core.value;
    if opts.skipDb {
      var step, emitErr := EmitBatch(hosts, opts.remote, env.reply);
      return emitErr, hosts, [step];
    }
    var saveErr := SaveAndRecord(db, hosts, env);
    if saveErr.Some? {
      return saveErr, hosts, [HostsSaved];
    }
    var step, emitErr := EmitBatch(hosts, opts.remote, env.reply);
    return emitErr, hosts, [HostsSaved, ExternalIpUpdated, step];
  }

  /** An emit step that is emitHosts' treatment of `hosts`. */
  predicate EmitStep(s: Step, hosts: seq<HostRecord>, opts: EmitOptions, reply: Reply) {
    s.Emitted? && EmitsBatch(s.emission, hosts, opts, reply)
  }

  /** The emit half of FastScan. */
  method EmitBatch(hosts: seq<HostRecord>, opts: EmitOptions, reply: Reply)
    returns (step: Step, err: Option<string>)
    ensures EmitStep(step, hosts, opts, reply) && err == EmitError(step.emission)
  {
    var emission, emitErr := EmitHosts(hosts, opts, reply);
    step, err := Emitted(emission), emitErr;
  }

  /** The store half of FastScan: save the batch, then, when that succeeds, update the external address. */
  method SaveAndRecord(db: LocalDb, hosts: seq<HostRecord>, env: FastScanEnv) returns (err: Option<string>)
    modifies db
    ensures err == SaveError(hosts, env)
    ensures env.dbOpenError.None? ==> db.hosts == SavedTable(old(db.hosts), hosts, env.now, env.refused)
    ensures env.dbOpenError.Some? ==> db.hosts == old(db.hosts)
    ensures err.Some? ==> db.externalNetworks == old(db.externalNetworks)
    ensures err.None? && ExternalIp(env.fetch) != "" && env.dbOpenError.None? ==>
      db.externalNetworks == old(db.externalNetworks)[ExternalIp(env.fetch) := env.now]
    ensures err.None? && (ExternalIp(env.fetch) == "" || env.dbOpenError.Some?) ==>
      db.externalNetworks == old(db.externalNetworks)
  {
    err := db.SaveHostsToDB(hosts, env.now, env.dbOpenError, env.refused);
    if err.Some? {
      return;
    }
    UpdateExternalIpInDb(db, env.fetch, env.dbOpenError, env.now);
  }
}
