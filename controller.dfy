/**
 * The controller's remote-site API: ingesting an agent's batch into the
 * remote tables, registering a site, the per-site summary, reading a stored
 * host back, and the script and log listings. Each table is a map keyed by
 * its UNIQUE columns; a JSON text column holds the value it encodes, with
 * `None` standing for NULL or empty text.
 */
module Controller {
  import opened Wrappers
  import opened Text
  import opened Seqs

  // ---------------------------------------------------------------- request models

  datatype RemotePort = RemotePort(port: int, protocol: string, service: Option<string>, state: Option<string>)

  /** One host of an ingest payload; a list field left out of the JSON arrives empty. */
  datatype RemoteHost = RemoteHost(
    ip: string,
    hostname: Option<string>,
    os: Option<string>,
    mac: Option<string>,
    note: Option<string>,
    tags: seq<string>,
    lastSeen: Option<string>,
    metadata: Option<map<string, string>>,
    ports: seq<RemotePort>)

  datatype IngestPayload = IngestPayload(siteName: Option<string>, agentVersion: Option<string>, hosts: seq<RemoteHost>)

  datatype SiteDefinition = SiteDefinition(siteId: string, siteName: Option<string>, description: Option<string>)

  /** An HTTPException: status code and detail. */
  datatype HttpError = HttpError(status: int, detail: string)

  /** Python truthiness of an optional string: present and not empty. */
  predicate Truthy(s: Option<string>) {
    s.Some? && s.value != ""
  }

  /** Python's `a or b`: `a` when it is truthy, else `b` whatever it is. */
  function OrElse(a: Option<string>, b: Option<string>): (r: Option<string>)
    ensures Truthy(a) ==> r == a
    ensures !Truthy(a) ==> r == b
  {
    if Truthy(a) then a else b
  }

  // ---------------------------------------------------------------- tables

  /** A remote_sites row, keyed by site_id. */
  datatype SiteRow = SiteRow(siteName: Option<string>, description: Option<string>, createdAt: string, updatedAt: string)

  datatype AgentKey = AgentKey(siteId: string, agentId: string)

  /** A remote_agents row, keyed by (site_id, agent_id). */
  datatype AgentRow = AgentRow(siteName: Option<string>, agentVersion: Option<string>, lastIngest: string, lastHeartbeat: string)

  datatype HostKey = HostKey(siteId: string, agentId: string, ip: string)

  /** A remote_hosts row, keyed by (site_id, agent_id, ip). */
  datatype HostRow = HostRow(
    siteName: Option<string>,
    agentVersion: Option<string>,
    hostname: Option<string>,
    os: Option<string>,
    mac: Option<string>,
    note: Option<string>,
    tags: Option<seq<string>>,
    ports: Option<seq<RemotePort>>,
    lastSeen: Option<string>,
    metadata: Option<map<string, string>>,
    updatedAt: string)

  type Sites = map<string, SiteRow>
  type Agents = map<AgentKey, AgentRow>
  type Hosts = map<HostKey, HostRow>

  // ---------------------------------------------------------------- ingest

  const EmptyHosts: HttpError := HttpError(400, "hosts payload cannot be empty")

  /** The answer to a successful ingest. */
  datatype IngestReply = IngestReply(hostsProcessed: nat, agentId: string, siteId: string)

  /**
   * The site placeholder an ingest writes: a new site is named after the
   * payload's site name, or its id when that is absent or empty; an existing
   * site keeps a name it already has (COALESCE) and only has its update time
   * touched.
   */
  function SiteAfterIngest(sites: Sites, siteId: string, siteName: Option<string>, now: string): (r: Sites)
    ensures r.Keys == sites.Keys + {siteId}
    ensures forall s :: s in sites && s != siteId ==> r[s] == sites[s]
    ensures siteId !in sites ==>
      r[siteId] == SiteRow(Some(if Truthy(siteName) then siteName.value else siteId), None, now, now)
    ensures siteId in sites ==>
      r[siteId].description == sites[siteId].description && r[siteId].createdAt == sites[siteId].createdAt
    ensures siteId in sites && sites[siteId].siteName.Some? ==> r[siteId].siteName == sites[siteId].siteName
    ensures r[siteId].siteName.Some? && r[siteId].updatedAt == now
  {
    var name := if Truthy(siteName) then siteName.value else siteId;
    if siteId in sites then
      var row := sites[siteId];
      sites[siteId := row.(siteName := if row.siteName.Some? then row.siteName else Some(name), updatedAt := now)]
    else
      sites[siteId := SiteRow(Some(name), None, now, now)]
  }

  /** The remote_hosts row written for one host of a payload. */
  function HostRowOf(p: IngestPayload, h: RemoteHost, now: string): HostRow {
    HostRow(
      p.siteName, p.agentVersion, h.hostname, h.os, h.mac, h.note,
      Some(if h.tags != [] then h.tags else []),
      Some(if h.ports != [] then h.ports else []),
      Some(if Truthy(h.lastSeen) then h.lastSeen.value else now),
      Some(if h.metadata.Some? && h.metadata.value != map[] then h.metadata.value else map[]),
      now)
  }

  /** The hosts table after upserting `hosts` in order; a later host with the same IP overwrites the earlier row. */
  function IngestedHosts(t: Hosts, siteId: string, agentId: string, p: IngestPayload, hosts: seq<RemoteHost>, now: string): Hosts
    decreases |hosts|
  {
    if |hosts| == 0 then t
    else
      var h := hosts[|hosts| - 1];
      IngestedHosts(t, siteId, agentId, p, hosts[..|hosts| - 1], now)[HostKey(siteId, agentId, h.ip) := HostRowOf(p, h, now)]
  }

  /**
   * After an ingest there is exactly one row for each (site, agent, ip) of the
   * batch and nothing else is added.
   */
  lemma {:induction false} IngestedHostsKeys(t: Hosts, siteId: string, agentId: string, p: IngestPayload,
                                             hosts: seq<RemoteHost>, now: string, k: HostKey)
    ensures k in IngestedHosts(t, siteId, agentId, p, hosts, now) <==>
      k in t || (k.siteId == siteId && k.agentId == agentId && exists i :: 0 <= i < |hosts| && hosts[i].ip == k.ip)
    decreases |hosts|
  {
    if |hosts| > 0 {
      var init := hosts[..|hosts| - 1];
      IngestedHostsKeys(t, siteId, agentId, p, init, now, k);
      if k.siteId == siteId && k.agentId == agentId && (exists i :: 0 <= i < |hosts| && hosts[i].ip == k.ip) {
        var i :| 0 <= i < |hosts| && hosts[i].ip == k.ip;
        if i < |hosts| - 1 {
          assert init[i].ip == k.ip;
        }
      }
      if exists i :: 0 <= i < |init| && init[i].ip == k.ip {
        var i :| 0 <= i < |init| && init[i].ip == k.ip;
        assert hosts[i].ip == k.ip;
      }
    }
  }

  /** Rows of other sites, other agents and other IPs are untouched by an ingest. */
  lemma {:induction false} IngestedHostsElsewhere(t: Hosts, siteId: string, agentId: string, p: IngestPayload,
                                                  hosts: seq<RemoteHost>, now: string, k: HostKey)
    requires forall i :: 0 <= i < |hosts| ==> HostKey(siteId, agentId, hosts[i].ip) != k
    ensures k in IngestedHosts(t, siteId, agentId, p, hosts, now) <==> k in t
    ensures k in t ==> IngestedHosts(t, siteId, agentId, p, hosts, now)[k] == t[k]
    decreases |hosts|
  {
    if |hosts| > 0 {
      var init := hosts[..|hosts| - 1];
      assert forall i :: 0 <= i < |init| ==> init[i] == hosts[i];
      IngestedHostsElsewhere(t, siteId, agentId, p, init, now, k);
    }
  }

  /** A repeated IP ends with the values of its last entry in the batch. */
  lemma {:induction false} IngestedHostsLastWins(t: Hosts, siteId: string, agentId: string, p: IngestPayload,
                                                 hosts: seq<RemoteHost>, now: string, i: nat)
    requires i < |hosts|
    requires forall j :: i < j < |hosts| ==> hosts[j].ip != hosts[i].ip
    ensures HostKey(siteId, agentId, hosts[i].ip) in IngestedHosts(t, siteId, agentId, p, hosts, now)
    ensures IngestedHosts(t, siteId, agentId, p, hosts, now)[HostKey(siteId, agentId, hosts[i].ip)]
         == HostRowOf(p, hosts[i], now)
    decreases |hosts|
  {
    if i < |hosts| - 1 {
      var init := hosts[..|hosts| - 1];
      assert init[i] == hosts[i];
      IngestedHostsLastWins(t, siteId, agentId, p, init, now, i);
    }
  }

  // ---------------------------------------------------------------- reading a host back

  /** The JSON object _serialize_remote_host returns for one row. */
  datatype HostView = HostView(
    siteId: string, agentId: string, siteName: Option<string>, agentVersion: Option<string>,
    ip: string, hostname: Option<string>, os: Option<string>, mac: Option<string>, note: Option<string>,
    tags: seq<string>, ports: seq<RemotePort>, lastSeen: Option<string>,
    metadata: map<string, string>, updatedAt: string)

  /** _serialize_remote_host: a NULL or empty JSON column reads as an empty list or object. */
  function SerializeRemoteHost(k: HostKey, row: HostRow): (v: HostView)
    ensures row.tags.None? ==> v.tags == []
    ensures row.ports.None? ==> v.ports == []
    ensures row.metadata.None? ==> v.metadata == map[]
    ensures v.ip == k.ip && v.siteId == k.siteId && v.agentId == k.agentId
  {
    HostView(
      k.siteId, k.agentId, row.siteName, row.agentVersion, k.ip, row.hostname, row.os, row.mac, row.note,
      if row.tags.Some? then row.tags.value else [],
      if row.ports.Some? then row.ports.value else [],
      row.lastSeen,
      if row.metadata.Some? then row.metadata.value else map[],
      row.updatedAt)
  }

  /**
   * An ingested host reads back as it was sent: the same tags, ports and
   * names, the metadata or an empty object, and a last-seen time that is the
   * one sent or else the ingest time.
   */
  lemma IngestedHostReadsBack(siteId: string, agentId: string, p: IngestPayload, h: RemoteHost, now: string)
    ensures var v := SerializeRemoteHost(HostKey(siteId, agentId, h.ip), HostRowOf(p, h, now));
      v.tags == h.tags && v.ports == h.ports
      && v.hostname == h.hostname && v.os == h.os && v.mac == h.mac && v.note == h.note
      && v.metadata == (if h.metadata.Some? then h.metadata.value else map[])
      && v.lastSeen == Some(if Truthy(h.lastSeen) then h.lastSeen.value else now)
      && v.siteName == p.siteName && v.agentVersion == p.agentVersion
  {
  }

  // ---------------------------------------------------------------- site registration

  const SiteIdRequired: HttpError := HttpError(400, "site_id is required")

  /** The answer to a registration. */
  datatype SiteReply = SiteReply(siteId: string, siteName: string, description: Option<string>, updatedAt: string)

  /** register_site's name: the stripped name when one is given, else the stripped id. */
  function RegisteredName(site: SiteDefinition): string {
    if Truthy(site.siteName) then Strip(site.siteName.value) else Strip(site.siteId)
  }

  /** register_site's description: the stripped text when one is given, else none. */
  function RegisteredDescription(site: SiteDefinition): Option<string> {
    if Truthy(site.description) then Some(Strip(site.description.value)) else None
  }

  /**
   * An absent or empty name falls back to the id; a name made only of blanks
   * is truthy, so it is stripped to "" instead of falling back.
   */
  lemma RegisteredNameFallback(site: SiteDefinition)
    ensures !Truthy(site.siteName) ==> RegisteredName(site) == Strip(site.siteId)
    ensures Truthy(site.siteName) && (forall i :: 0 <= i < |site.siteName.value| ==> IsPySpace(site.siteName.value[i]))
      ==> RegisteredName(site) == ""
  {
    if Truthy(site.siteName) {
      var n := site.siteName.value;
      if forall i :: 0 <= i < |n| ==> IsPySpace(n[i]) {
        assert TrimLeftFunc(n, IsPySpace) == [];
      }
    }
  }

  // ---------------------------------------------------------------- site summary

  /** One row of the hosts query, grouped by site: COALESCE(MAX(site_name), site_id), COUNT(DISTINCT ip), MAX(...). */
  datatype HostGroup = HostGroup(siteName: string, hostCount: nat, lastSeen: Option<string>, updatedAt: Option<string>)

  /** One row of the agents query, grouped by site. */
  datatype AgentGroup = AgentGroup(siteName: string, agentCount: nat, lastHeartbeat: Option<string>)

  datatype SiteSummary = SiteSummary(
    siteId: string, siteName: string, description: Option<string>,
    hostCount: nat, lastSeen: Option<string>, updatedAt: Option<string>,
    agentCount: nat, lastHeartbeat: Option<string>, createdAt: Option<string>)

  /** The sites that appear in the registry, the hosts query or the agents query. */
  function AllSiteIds(sites: Sites, hostMap: map<string, HostGroup>, agentMap: map<string, AgentGroup>): set<string> {
    sites.Keys + hostMap.Keys + agentMap.Keys
  }

  /**
   * The summary of one site: the name falls back from the registry to the
   * hosts to the agents to the id, each when the previous one is missing or
   * empty; counts are 0 for a site without hosts or agents.
   */
  function SummaryFor(id: string, sites: Sites, hostMap: map<string, HostGroup>, agentMap: map<string, AgentGroup>): (s: SiteSummary)
    ensures s.siteId == id
  {
    var regName := if id in sites then sites[id].siteName else None;
    var hostName := if id in hostMap then Some(hostMap[id].siteName) else None;
    var agentName := if id in agentMap then Some(agentMap[id].siteName) else None;
    var heartbeat := if id in agentMap then agentMap[id].lastHeartbeat else None;
    SiteSummary(
      id,
      OrElse(regName, OrElse(hostName, OrElse(agentName, Some(id)))).value,
      if id in sites then sites[id].description else None,
      if id in hostMap then hostMap[id].hostCount else 0,
      OrElse(if id in hostMap then hostMap[id].lastSeen else None, heartbeat),
      OrElse(OrElse(if id in hostMap then hostMap[id].updatedAt else None, heartbeat),
             if id in sites then Some(sites[id].updatedAt) else None),
      if id in agentMap then agentMap[id].agentCount else 0,
      heartbeat,
      if id in sites then Some(sites[id].createdAt) else None)
  }

  /**
   * The name chain: a registered non-empty name wins, then the hosts' name,
   * then the agents', and the id when none of them is usable; a site with a
   * non-empty id is never nameless.
   */
  lemma SummaryNameChain(id: string, sites: Sites, hostMap: map<string, HostGroup>, agentMap: map<string, AgentGroup>)
    ensures var s := SummaryFor(id, sites, hostMap, agentMap);
      (id in sites && Truthy(sites[id].siteName) ==> s.siteName == sites[id].siteName.value)
      && ((!(id in sites && Truthy(sites[id].siteName)) && id in hostMap && hostMap[id].siteName != "")
          ==> s.siteName == hostMap[id].siteName)
      && ((!(id in sites && Truthy(sites[id].siteName)) && !(id in hostMap && hostMap[id].siteName != "")
           && id in agentMap && agentMap[id].siteName != "") ==> s.siteName == agentMap[id].siteName)
      && ((!(id in sites && Truthy(sites[id].siteName)) && !(id in hostMap && hostMap[id].siteName != "")
           && !(id in agentMap && agentMap[id].siteName != "")) ==> s.siteName == id)
      && (id != "" ==> s.siteName != "")
      && (id !in hostMap ==> s.hostCount == 0) && (id !in agentMap ==> s.agentCount == 0)
  {
  }

  /** Python's ordering of `str` values (and SQLite's for text): code point by code point, a proper prefix first. */
  predicate StrLt(a: string, b: string)
    decreases |a|
  {
    if a == [] then b != []
    else if b == [] then false
    else if a[0] != b[0] then a[0] < b[0]
    else StrLt(a[1..], b[1..])
  }

  lemma {:induction false} StrLtIrreflexive(a: string)
    ensures !StrLt(a, a)
    decreases |a|
  {
    if a != [] {
      StrLtIrreflexive(a[1..]);
    }
  }

  lemma {:induction false} StrLtTransitive(a: string, b: string, c: string)
    requires StrLt(a, b) && StrLt(b, c)
    ensures StrLt(a, c)
    decreases |a|
  {
    if a != [] && a[0] == b[0] && b[0] == c[0] {
      StrLtTransitive(a[1..], b[1..], c[1..]);
    }
  }

  lemma {:induction false} StrLtTotal(a: string, b: string)
    requires a != b
    ensures StrLt(a, b) || StrLt(b, a)
    decreases |a|
  {
    if a != [] && b != [] && a[0] == b[0] {
      StrLtTotal(a[1..], b[1..]);
    }
  }

  /** Every non-empty set of strings has a least element. */
  lemma {:induction false} LeastExists(s: set<string>)
    requires s != {}
    ensures exists m :: m in s && forall x :: x in s && x != m ==> StrLt(m, x)
    decreases |s|
  {
    var y :| y in s;
    var rest := s - {y};
    if rest != {} {
      LeastExists(rest);
      var m :| m in rest && forall x :: x in rest && x != m ==> StrLt(m, x);
      StrLtTotal(m, y);
      if StrLt(y, m) {
        forall x | x in s && x != y ensures StrLt(y, x) {
          if x != m {
            StrLtTransitive(y, m, x);
          }
        }
      } else {
        assert forall x :: x in s && x != m ==> StrLt(m, x);
      }
    } else {
      assert s == {y};
    }
  }

  /** sorted(): the ids in strictly increasing order, each once. */
  method SortedIds(s: set<string>) returns (ids: seq<string>)
    ensures forall i, j :: 0 <= i < j < |ids| ==> StrLt(ids[i], ids[j])
    ensures forall x :: x in s <==> x in ids
    ensures |ids| == |s|
  {
    ids := [];
    var rest := s;
    while rest != {}
      invariant rest <= s
      invariant forall x :: x in s <==> x in ids || x in rest
      invariant forall i :: 0 <= i < |ids| ==> ids[i] !in rest
      invariant forall i, j :: 0 <= i < j < |ids| ==> StrLt(ids[i], ids[j])
      invariant forall i, x :: 0 <= i < |ids| && x in rest ==> StrLt(ids[i], x)
      invariant |ids| + |rest| == |s|
      decreases |rest|
    {
      LeastExists(rest);
      var m :| m in rest && forall x :: x in rest && x != m ==> StrLt(m, x);
      ids := ids + [m];
      rest := rest - {m};
    }
  }

  /** The strictly increasing order makes the ids distinct. */
  lemma IncreasingDistinct(ids: seq<string>, i: int, j: int)
    requires forall a, b :: 0 <= a < b < |ids| ==> StrLt(ids[a], ids[b])
    requires 0 <= i < |ids| && 0 <= j < |ids| && i != j
    ensures ids[i] != ids[j]
  {
    if i < j {
      StrLtIrreflexive(ids[i]);
    } else {
      StrLtIrreflexive(ids[j]);
    }
  }

  /** The merge loop: one summary per id, in the order of the ids. */
  method SummariesOf(ids: seq<string>, sites: Sites, hostMap: map<string, HostGroup>, agentMap: map<string, AgentGroup>)
    returns (summary: seq<SiteSummary>)
    ensures |summary| == |ids|
    ensures forall i :: 0 <= i < |ids| ==> summary[i].siteId == ids[i]
    ensures forall i :: 0 <= i < |ids| ==> summary[i] == SummaryFor(ids[i], sites, hostMap, agentMap)
  {
    summary := [];
    var k := 0;
    while k < |ids|
      invariant 0 <= k <= |ids| && |summary| == k
      invariant forall i :: 0 <= i < k ==> summary[i].siteId == ids[i]
      invariant forall i :: 0 <= i < k ==> summary[i] == SummaryFor(ids[i], sites, hostMap, agentMap)
    {
      summary := summary + [SummaryFor(ids[k], sites, hostMap, agentMap)];
      k := k + 1;
    }
  }

  /** Summaries that follow the sorted ids are sorted, and cover the ids' set once each. */
  lemma SummaryIds(summary: seq<SiteSummary>, ids: seq<string>, all: set<string>)
    requires |summary| == |ids| && |ids| == |all|
    requires forall i :: 0 <= i < |ids| ==> summary[i].siteId == ids[i]
    requires forall i, j :: 0 <= i < j < |ids| ==> StrLt(ids[i], ids[j])
    requires forall x :: x in all <==> x in ids
    ensures forall i, j :: 0 <= i < j < |summary| ==> StrLt(summary[i].siteId, summary[j].siteId)
    ensures forall id :: id in all <==> (exists i :: 0 <= i < |summary| && summary[i].siteId == id)
  {
    forall id | id in all ensures exists i :: 0 <= i < |summary| && summary[i].siteId == id {
      var i :| 0 <= i < |ids| && ids[i] == id;
      assert summary[i].siteId == id;
    }
  }

  // ---------------------------------------------------------------- scripts and logs

  datatype Script = Script(cmd: string, log: string)

  const LogsDir: string := "/config/logs"

  const AllowedScripts: map<string, Script> := map[
    "scan-hosts-fast" := Script("/config/bin/atlas fastscan", LogsDir + "/" + "scan-hosts-fast.log"),
    "scan-hosts-deep" := Script("/config/bin/atlas deepscan", LogsDir + "/" + "scan-hosts-deep.log"),
    "scan-docker" := Script("/config/bin/atlas dockerscan", LogsDir + "/" + "scan-docker.log")]

  const InvalidScript: HttpError := HttpError(400, "Invalid script name")

  /** run_named_script's check: only the allowed names run, with their own command and log. */
  function ScriptFor(name: string): (r: Result<Script, HttpError>)
    ensures r.Err? <==> name !in AllowedScripts
    ensures r.Err? ==> r.error == InvalidScript
    ensures r.Ok? ==> r.value == AllowedScripts[name]
  {
    if name !in AllowedScripts then Err(InvalidScript) else Ok(AllowedScripts[name])
  }

  /** The log names list_logs shows: ".log" files other than the per-host nmap logs. */
  predicate ListedLog(name: string) {
    HasSuffix(name, ".log") && !HasPrefix(name, "nmap_tcp_") && !HasPrefix(name, "nmap_udp_")
  }

  function LogEntry(name: string): Option<string> {
    if ListedLog(name) then Some(name) else None
  }

  /** Every allowed script writes a log in the logs directory that list_logs shows. */
  lemma ScriptLogsListed(name: string)
    requires name in AllowedScripts
    ensures AllowedScripts[name].log == LogsDir + "/" + name + ".log"
    ensures ListedLog(name + ".log")
  {
    var f := name + ".log";
    assert name == "scan-hosts-fast" || name == "scan-hosts-deep" || name == "scan-docker";
    assert f[|f| - 4..] == ".log";
    assert f[..9][0] == name[0] == 's';
  }

  function ContainerEntries(cs: seq<string>): (r: seq<string>)
    ensures |r| == |cs| && forall i :: 0 <= i < |cs| ==> r[i] == "container:" + cs[i]
  {
    seq(|cs|, i requires 0 <= i < |cs| => "container:" + cs[i])
  }

  /**
   * list_logs: the directory's listed logs in directory order, then one
   * "container:" entry per running container when `docker ps` succeeds.
   */
  method ListLogs(names: seq<string>, containers: Result<seq<string>, string>) returns (files: seq<string>)
    ensures files == FilterMap(names, LogEntry) + (if containers.Ok? then ContainerEntries(containers.value) else [])
  {
    files := [];
    var i := 0;
    while i < |names|
      invariant 0 <= i <= |names|
      invariant files == FilterMap(names[..i], LogEntry)
    {
      FilterMapSnoc(names[..i], names[i], LogEntry);
      assert names[..i + 1] == names[..i] + [names[i]];
      var name := names[i];
      if ListedLog(name) {
        files := files + [name];
      }
      i := i + 1;
    }
    assert names[..|names|] == names;
    if containers.Ok? {
      files := files + ContainerEntries(containers.value);
    }
  }

  /** The listed logs are exactly the directory's names that pass the filter, in their order. */
  lemma ListedLogsExactly(names: seq<string>)
    ensures forall j :: 0 <= j < |FilterMap(names, LogEntry)| ==> ListedLog(FilterMap(names, LogEntry)[j])
    ensures forall x :: x in FilterMap(names, LogEntry) <==> x in names && ListedLog(x)
  {
    FilterMapIndices(names, LogEntry);
    var k := SomeIndices(names, LogEntry);
    var r := FilterMap(names, LogEntry);
    forall x | x in names && ListedLog(x) ensures x in r {
      var i :| 0 <= i < |names| && names[i] == x;
      assert i in k;
      var j :| 0 <= j < |k| && k[j] == i;
      assert LogEntry(names[k[j]]) == Some(r[j]);
    }
    forall x | x in r ensures x in names && ListedLog(x) {
      var j :| 0 <= j < |r| && r[j] == x;
      assert LogEntry(names[k[j]]) == Some(r[j]);
    }
  }

  // ---------------------------------------------------------------- the database

  /** The controller's three remote tables, which its SQL statements update in place. */
  class ControllerDb {
    var sites: Sites
    var agents: Agents
    var hosts: Hosts

    /** ensure_remote_tables on a fresh database: three empty tables. */
    constructor ()
      ensures sites == map[] && agents == map[] && hosts == map[]
    {
      sites, agents, hosts := map[], map[], map[];
    }

    /**
     * ingest_remote_hosts. An empty batch is refused before any table is
     * touched. Otherwise the site placeholder is written, the agent's row is
     * overwritten, every host is upserted in order, and the reply counts every
     * host of the batch, repeated IPs included.
     */
    method IngestRemoteHosts(siteId: string, agentId: string, payload: IngestPayload, now: string)
      returns (r: Result<IngestReply, HttpError>)
      modifies this
      ensures payload.hosts == [] ==>
        r == Err(EmptyHosts) && sites == old(sites) && agents == old(agents) && hosts == old(hosts)
      ensures payload.hosts != [] ==>
        r == Ok(IngestReply(|payload.hosts|, agentId, siteId))
        && sites == SiteAfterIngest(old(sites), siteId, payload.siteName, now)
        && agents == old(agents)[AgentKey(siteId, agentId) := AgentRow(payload.siteName, payload.agentVersion, now, now)]
        && hosts == IngestedHosts(old(hosts), siteId, agentId, payload, payload.hosts, now)
    {
      if payload.hosts == [] {
        return Err(EmptyHosts);
      }
      sites := SiteAfterIngest(sites, siteId, payload.siteName, now);
      agents := agents[AgentKey(siteId, agentId) := AgentRow(payload.siteName, payload.agentVersion, now, now)];
      var inserted := 0;
      var i := 0;
      while i < |payload.hosts|
        invariant 0 <= i <= |payload.hosts| && inserted == i
        invariant hosts == IngestedHosts(old(hosts), siteId, agentId, payload, payload.hosts[..i], now)
        invariant sites == SiteAfterIngest(old(sites), siteId, payload.siteName, now)
        invariant agents == old(agents)[AgentKey(siteId, agentId) := AgentRow(payload.siteName, payload.agentVersion, now, now)]
      {
        var host := payload.hosts[i];
        assert payload.hosts[..i + 1][..i] == payload.hosts[..i];
        hosts := hosts[HostKey(siteId, agentId, host.ip) := HostRowOf(payload, host, now)];
        inserted := inserted + 1;
        i := i + 1;
      }
      assert payload.hosts[..|payload.hosts|] == payload.hosts;
      return Ok(IngestReply(inserted, agentId, siteId));
    }

    /**
     * register_site. The id is stripped and a blank one is refused; the site's
     * name, description and update time are overwritten, and a new site also
     * gets its creation time.
     */
    method RegisterSite(site: SiteDefinition, now: string) returns (r: Result<SiteReply, HttpError>)
      requires site.siteId != ""
      modifies this
      ensures Strip(site.siteId) == "" ==>
        r == Err(SiteIdRequired) && sites == old(sites) && agents == old(agents) && hosts == old(hosts)
      ensures Strip(site.siteId) != "" ==>
        var id := Strip(site.siteId);
        r == Ok(SiteReply(id, RegisteredName(site), RegisteredDescription(site), now))
        && sites == old(sites)[id := SiteRow(Some(RegisteredName(site)), RegisteredDescription(site),
                                             if id in old(sites) then old(sites)[id].createdAt else now, now)]
        && agents == old(agents) && hosts == old(hosts)
    {
      var id := Strip(site.siteId);
      if id == "" {
        return Err(SiteIdRequired);
      }
      var name := RegisteredName(site);
      var description := RegisteredDescription(site);
      var created := if id in sites then sites[id].createdAt else now;
      sites := sites[id := SiteRow(Some(name), description, created, now)];
      return Ok(SiteReply(id, name, description, now));
    }

    /**
     * get_site_summary's merge, given the two grouped query results: one entry
     * per site of the registry, the hosts or the agents, each exactly once, in
     * increasing id order, each built by the fallback chain.
     */
    method GetSiteSummary(hostMap: map<string, HostGroup>, agentMap: map<string, AgentGroup>)
      returns (summary: seq<SiteSummary>)
      ensures |summary| == |AllSiteIds(sites, hostMap, agentMap)|
      ensures forall i, j :: 0 <= i < j < |summary| ==> StrLt(summary[i].siteId, summary[j].siteId)
      ensures forall i, j :: 0 <= i < j < |summary| ==> summary[i].siteId != summary[j].siteId
      ensures forall id :: id in AllSiteIds(sites, hostMap, agentMap) <==>
                (exists i :: 0 <= i < |summary| && summary[i].siteId == id)
      ensures forall i :: 0 <= i < |summary| ==> summary[i] == SummaryFor(summary[i].siteId, sites, hostMap, agentMap)
    {
      var ids := SortedIds(AllSiteIds(sites, hostMap, agentMap));
      summary := SummariesOf(ids, sites, hostMap, agentMap);
      SummaryIds(summary, ids, AllSiteIds(sites, hostMap, agentMap));
      forall i, j | 0 <= i < j < |summary|
        ensures summary[i].siteId != summary[j].siteId
      {
        IncreasingDistinct(ids, i, j);
      }
    }
  }
}
