# Atlas network scanner and controller — a Dafny model

Atlas inventories the hosts of a local network. A Go scanner (`atlas`) runs
one of three scan modes:

- a **fast scan** sweeps each interface's subnet with `nmap -sn` and records
  every live address;
- a **deep scan** also probes every live host: its name, all TCP ports, the
  OS guess, the MAC address and whether it answers a ping;
- a **remote agent** repeats one of the scans on a schedule.

Every scan turns its findings into host records. A record is either upserted
into the local SQLite store or shipped as a JSON batch to a controller. The
controller is a FastAPI service. It keeps one table of remote sites, one of
agents and one of hosts, and it serves a per-site summary and the list of
logs.

This project models that core in Dafny and proves what it promises. One
module per concern:

| module | file | models |
|---|---|---|
| `Wrappers` | wrappers.dfy | `Option` and `Result` |
| `Text` | text.dfy | the Go `strings`/`strconv` functions and Python's `str.strip` the code relies on |
| `Seqs` | seqs.dfy | the loop shapes keep-and-convert, first match and last match, plus flattening |
| `Records` | records.dfy | `HostRecord`, `RemotePort`, `PortDetails` and the payload types of dto.go |
| `Parsers` | parsers.dfy | the tool-output parsers of deep_scan.go |
| `Payload` | payload.dfy | the projections of dto.go |
| `Remote` | remote.dfy | the remote configuration |
| `Emission` | emission.dfy | the emit gate and `emitHosts` |
| `Store` | store.dfy | the local `hosts` and `external_networks` tables, as a `LocalDb` class |
| `FastScan` | fastscan.dfy | fastscan.go |
| `DeepScan` | deepscan.dfy | the deep scan |
| `Agent` | agent.dfy | agent.go |
| `Cli` | cli.dfy | the flag and environment helpers of main.go |
| `Controller` | controller.dfy | the remote-site endpoints of app.py |

Everything outside the program is an input.

- **External tools.** The output of `nmap`, `nbtscan`, `ip route`, `curl` and
  `docker ps`, and the ARP table, are given as text or lines. Their failure is
  a `Result` error.
- **Other inputs.** Reverse DNS, ping, interface detection and the clock are
  given values. The transport's answer to a POST is a `Reply`: the request
  is rejected before sending (`http.NewRequest` fails), the transport fails,
  or a response comes back.
- **The store.** Whether the store opens, and which upserts it refuses, are
  parameters.
- **Tables.** A table is a map keyed by its UNIQUE columns. `ON CONFLICT` is a
  map update. The tables the code updates in place are fields of a class:
  `Store.LocalDb` for the scanner and `Controller.ControllerDb` for the
  controller.
- **Timestamps.** Times are opaque: naturals on the Go side, strings on the
  Python side.

## Model

| member | source | states |
|---|---|---|
| Parsers.ParseEntry | config/atlas_go/internal/scan/deep_scan.go:98-115 | an entry is kept only when it has at least 5 slash fields and its state passes the retention rule (exactly "open" or "filtered"); the port record is (Atoi of field 1, 0 when that is not a clean integer; protocol field 3; service field 5; state field 2); the text is the port field, "/", the protocol, then " (service)" when the service is not empty |
| Parsers.KeptEntriesValid | config/atlas_go/internal/scan/deep_scan.go:95-107 | every kept entry passes the filter, and every comma piece that passes is kept |
| Parsers.KeptEntriesInOrder | config/atlas_go/internal/scan/deep_scan.go:95-115 | the kept entries are the passing pieces in input order: piece k[j] gives entry j and k increases |
| Parsers.PortDetailsPorts | config/atlas_go/internal/scan/deep_scan.go:95-115 | port j of the result is read off the slash fields of the j-th passing comma piece, and there is one port per passing piece |
| Parsers.PortDetailsLabels | config/atlas_go/internal/scan/deep_scan.go:95-120 | summary piece j is the port text of the j-th passing comma piece with port j's protocol and service, so the summary is rebuilt from the port list and those texts |
| Parsers.SummaryUnknownIff | config/atlas_go/internal/scan/deep_scan.go:117-120 | the summary is "Unknown" exactly when no entry was kept |
| Parsers.ParseNmapPorts | config/atlas_go/internal/scan/deep_scan.go:94-122 | the loop returns the function's port details; the summary pieces and the port list correspond one to one; the summary is "Unknown" exactly when the port list is empty; every port's state is "open" or "filtered" |
| Parsers.KeepPortEntries | config/atlas_go/internal/scan/deep_scan.go:98-116 | the loop's readable texts and ports are those of the kept entries, in order |
| Parsers.KeepPortEntry | config/atlas_go/internal/scan/deep_scan.go:99-115 | one loop iteration appends the piece's text and port exactly when the piece is kept, and leaves both lists unchanged otherwise |
| Parsers.ParsePortEntry | config/atlas_go/internal/scan/deep_scan.go:99-115 | the loop body computes the entry the specification keeps or drops |
| Parsers.PortDetailsUnknownIff | config/atlas_go/internal/scan/deep_scan.go:117-121 | for every input the summary is "Unknown" exactly when no port was kept |
| Parsers.LeadingBlankPortIsZero | config/atlas_go/internal/scan/deep_scan.go:95-113 | " 123/open/udp//ntp///", the piece after ", ", is kept with port 0 and summary text " 123/udp (ntp)" |
| Parsers.LeadingBlankIsNotANumber | config/atlas_go/internal/scan/deep_scan.go:113 | Atoi of " 123" fails, so the ignored error leaves 0 |
| Parsers.OpenFilteredDropped | config/atlas_go/internal/scan/deep_scan.go:107 | an entry in state "open\|filtered" is dropped |
| Parsers.UnfilteredDropped | config/atlas_go/internal/scan/deep_scan.go:107 | an entry in state "unfiltered" is dropped |
| Parsers.ReportLine | config/atlas_go/internal/scan/deep_scan.go:78-87 | only "Nmap scan report for" lines count: 6 fields with a parenthesised 6th give name = field 5 and ip = field 6 trimmed of parentheses (so no parenthesis at either end); exactly 5 fields give (ip = field 5, "NoName"); any other shape gives nothing |
| Parsers.SweepHostsInOrder | config/atlas_go/internal/scan/deep_scan.go:77-89 | the sweep's hosts are those of its report lines, in line order, and every report line of either shape contributes |
| Parsers.DiscoverLiveHosts | config/atlas_go/internal/scan/deep_scan.go:71-91 | a failed sweep returns its error; otherwise the loop returns the report lines' hosts in order |
| Parsers.ReportedHosts | config/atlas_go/internal/scan/deep_scan.go:76-90 | the loop over the output's lines keeps the hosts of the report lines, converted, in their input order |
| Parsers.ReadReportLine | config/atlas_go/internal/scan/deep_scan.go:78-87 | the loop body reads the same host as the specification |
| Parsers.PortsFieldMatch | config/atlas_go/internal/scan/deep_scan.go:148-155 | the lazy capture of `Ports: (...)Ignored State:` starts right after the first "Ports: " and stops where the first "Ignored State:" after it starts, so it holds none; a capture exists exactly when some "Ignored State:" starts after the first "Ports: " |
| Parsers.OsFieldMatch | config/atlas_go/internal/scan/deep_scan.go:149-158 | the capture of `OS: (.*)` is the rest of the line after the first "OS: " (the line is the text before it, the tag and the capture, and no "OS: " starts earlier); it exists exactly when the line holds "OS: " |
| Parsers.CleanOsShape | config/atlas_go/internal/scan/deep_scan.go:158-163 | the OS text is cut at the first tab and before "Seq Index:", then trimmed: it holds no tab, no "Seq Index:" and no surrounding blanks |
| Parsers.CleanOsCases | config/atlas_go/internal/scan/deep_scan.go:158-163 | for a text a with no tab: a tab after a ends the OS text whatever follows; when a also holds no "Seq Index:", a followed by "Seq Index:" and anything gives a trimmed, and a alone gives a trimmed |
| Parsers.CleanOsAtTab | config/atlas_go/internal/scan/deep_scan.go:159 | text after the first tab never reaches the OS text |
| Parsers.CleanOsAtSeqIndex | config/atlas_go/internal/scan/deep_scan.go:159-163 | before any tab, the first "Seq Index:" ends the OS text, which is the trimmed text before it |
| Parsers.CutSeqIndexAfter | config/atlas_go/internal/scan/deep_scan.go:160-162 | the cut is made at the "Seq Index:" that follows a text without one, and keeps that text trimmed |
| Parsers.RunResultShape | config/atlas_go/internal/scan/deep_scan.go:132-169 | for any run the summary is never empty and is "Unknown" exactly when no port was kept; the OS text holds no tab; a failed run or an unreadable log gives "Unknown" for both |
| Parsers.ScanLogLastWins | config/atlas_go/internal/scan/deep_scan.go:145-165 | the log loop ends with the details of the last "Ports:" line and the text of the last "OS:" line; a log without an "OS:" line gives "" |
| Parsers.ScanAllTcp | config/atlas_go/internal/scan/deep_scan.go:124-170 | the method returns the last-wins results of the log, or "Unknown"/"Unknown" when nmap fails or the log cannot be read |
| Parsers.ScanLogLine | config/atlas_go/internal/scan/deep_scan.go:153-164 | the loop body applies one line's captures |
| Parsers.NbtLookup | config/atlas_go/internal/scan/deep_scan.go:44-52 | the second field of the first line whose first field is the IP, "" when no line names it |
| Parsers.NetBiosName | config/atlas_go/internal/scan/deep_scan.go:39-53 | "" when nbtscan fails, else the lookup |
| Parsers.MacAddress | config/atlas_go/internal/scan/deep_scan.go:207-223 | the fourth field of the first line after the header that has at least four fields and names the IP, in both directions: such a line forces its field, and any other answer than "Unknown" is one; "Unknown" when the table is unreadable or has no such line |
| Parsers.ArpHeaderIgnored | config/atlas_go/internal/scan/deep_scan.go:215 | the ARP header line is never consulted, even when it names the IP |
| Parsers.HostName | config/atlas_go/internal/scan/deep_scan.go:199-205 | the first reverse-DNS name without its trailing dot; "NoName" on failure or no names |
| Parsers.BestHostName | config/atlas_go/internal/scan/deep_scan.go:56-69 | the first meaningful name among the sweep's, then reverse DNS, then a non-empty NetBIOS name, else "NoName"; never "" |
| DeepScan.ScanInterfaces | config/atlas_go/internal/scan/deep_scan.go:227-232 | the detected interfaces, or the single fallback ("unknown", "192.168.2.0/24") when detection fails |
| DeepScan.InterfaceHostsNames | config/atlas_go/internal/scan/deep_scan.go:245-255 | an interface's hosts all carry its name, and there are none when its sweep fails |
| DeepScan.DiscoveredSkipsFailedSweep | config/atlas_go/internal/scan/deep_scan.go:243-249 | a failing subnet is skipped and the loop goes on: the result is the discovery before it followed by the discovery after it |
| DeepScan.DiscoveredInterfaceNames | config/atlas_go/internal/scan/deep_scan.go:243-256 | every discovered host carries the name of an interface whose sweep succeeded |
| DeepScan.DiscoverAll | config/atlas_go/internal/scan/deep_scan.go:240-256 | the discovery loop returns the hosts of every interface, in interface and discovery order |
| DeepScan.DiscoverInterface | config/atlas_go/internal/scan/deep_scan.go:244-255 | one interface's tagged hosts, or none when its sweep fails |
| DeepScan.TagHosts | config/atlas_go/internal/scan/deep_scan.go:252-255 | each host gets the interface name, and nothing else changes |
| DeepScan.EstimatedLeftBounds | config/atlas_go/internal/scan/deep_scan.go:293-298 | the estimate (elapsed div (idx+1)) * (total-(idx+1)) is never negative, is 0 for the last host, and never exceeds the exact projection |
| DeepScan.DeepRecordConsistent | config/atlas_go/internal/scan/deep_scan.go:302-316 | a record's summary and ports come from one parse, so the summary is "Unknown" exactly when there are no ports; the name is never empty |
| DeepScan.ProbeHost | config/atlas_go/internal/scan/deep_scan.go:285-316 | the goroutine body builds the specified record |
| DeepScan.AcceptedAll | config/atlas_go/internal/scan/deep_scan.go:317-321 | with no refused upsert every record of the batch is upserted |
| DeepScan.ProbeAll | config/atlas_go/internal/scan/deep_scan.go:277-328 | every discovered host is probed once; the batch is a permutation of the per-host records; the store holds the batch's accepted records upserted in batch order, or is untouched when not in use |
| DeepScan.StoreRecord | config/atlas_go/internal/scan/deep_scan.go:317-321 | when the store is in use the record is upserted unless refused; a refusal is only logged |
| DeepScan.DeepScan | config/atlas_go/internal/scan/deep_scan.go:225-335 | a store that cannot be opened returns its error before any probe; otherwise every row is offline before probing, every host is probed once, its record is stored unless refused, and the batch is emitted |
| Payload.MergedMetadata | config/atlas_go/internal/scan/dto.go:71-88 | the record's metadata with interface_name, network_name and next_hop set on top, each only when non-empty; every other key is kept |
| Payload.MetadataForPayload | config/atlas_go/internal/scan/dto.go:71-88 | the copying loop gives the merged metadata and the record's own map is unchanged |
| Payload.RenderPort | config/atlas_go/internal/scan/dto.go:100-106 | the exact rendering in each of the four cases: "port/proto", followed by " (service)" exactly when a service is set and then " [state]" exactly when a state is set |
| Payload.PortsSummaryShape | config/atlas_go/internal/scan/dto.go:91-113 | the summary is never empty; a record's own summary always wins; an unset summary reads "Unknown" exactly when there are no ports |
| Payload.ComputePortsSummary | config/atlas_go/internal/scan/dto.go:91-113 | the loop computes the summary: the renderings joined by ", " |
| Payload.RenderPortNumberRoundTrip | config/atlas_go/internal/scan/dto.go:100 | Atoi reads the port number back from a rendered port |
| Payload.ToRemoteHostPayload | config/atlas_go/internal/scan/dto.go:117-144 | IP, hostname, OS, MAC and note are copied; tags, ports and merged metadata are absent when empty; last_seen is absent exactly for the zero time |
| Payload.ProjectionFacts | config/atlas_go/internal/scan/dto.go:117-144 | the projection is compact, keeps the network fields through the metadata, and never depends on the online status or the stored summary |
| Payload.RemotePayloadOf | config/atlas_go/internal/scan/dto.go:147-157 | one host payload per record, same length and order, element i the projection of record i |
| Payload.BuildRemotePayload | config/atlas_go/internal/scan/dto.go:147-157 | the loop builds that payload |
| Emission.Emit | config/atlas_go/internal/scan/dto.go:166-185 | nothing unless emission is on; prints exactly when printing is on; posts exactly when the config is enabled (a request is sent unless it is rejected), returning the POST's error |
| Emission.PrintAndPostIndependent | config/atlas_go/internal/scan/dto.go:174-183 | switching printing never changes the POST or its error |
| Emission.SiteNameFor | config/atlas_go/internal/scan/dto.go:211-214 | the site name, or the site ID when it is empty |
| Emission.AgentVersionFor | config/atlas_go/internal/scan/dto.go:215-218 | the agent version, or the build's version when it is empty |
| Emission.CountWithoutPortsZero | config/atlas_go/internal/scan/dto.go:195-202 | no record counts as port-less exactly when every record has ports |
| Emission.CountPorts | config/atlas_go/internal/scan/dto.go:195-202 | the counting loop: with-ports plus without-ports is the batch size |
| Emission.EmitHosts | config/atlas_go/internal/scan/dto.go:187-221 | skipped exactly when emission is off or the batch is empty; otherwise the counts cover the batch and the payload with the site-name and version fallbacks is emitted |
| Emission.EmitHostsPosts | config/atlas_go/internal/scan/dto.go:187-221 | an enabled emission sends a request exactly when it is not rejected, with one host payload per record, in order, to the configured endpoint, and succeeds exactly when the controller answers below 300 |
| Store.Defaulted | config/atlas_go/internal/scan/dto.go:253-261 | network "LAN", status "online" and the current time, each only when unset |
| Store.UpsertRow | config/atlas_go/internal/scan/dto.go:252-279 | insert the defaulted record, or on a (ip, interface_name) conflict overwrite every column but network_name; no other row changes |
| Store.UpsertIdempotent | config/atlas_go/internal/scan/dto.go:263-277 | upserting the same record twice is upserting it once |
| Store.UpsertAllElsewhere | config/atlas_go/internal/scan/dto.go:244-248 | a batch of upserts touches only the batch's own keys |
| Store.LastUpsertWins | config/atlas_go/internal/scan/dto.go:263-277 | any number of upserts to one key leave one row: the last record's columns, with network_name from the first insert |
| Store.MarkOffline | config/atlas_go/internal/scan/dto.go:240-242 | every row on a named interface becomes offline; nothing else changes |
| Store.MarkOfflineStep | config/atlas_go/internal/scan/dto.go:240-242 | marking interfaces one at a time is marking them all at once |
| Store.AllOffline | config/atlas_go/internal/scan/deep_scan.go:272 | the unscoped UPDATE: every row offline, nothing else changes |
| Store.BatchInterfaces | config/atlas_go/internal/scan/dto.go:234-239 | exactly the batch's non-empty interface names |
| Store.FirstRefused | config/atlas_go/internal/scan/dto.go:244-248 | the position of the first refused upsert, or the batch length |
| Store.SavedTable | config/atlas_go/internal/scan/dto.go:224-250 | the table after the save: the mentioned interfaces offline, then the records up to the first refused one upserted in order |
| Store.SaveScopedToBatch | config/atlas_go/internal/scan/dto.go:234-248 | rows of unmentioned interfaces are unchanged unless a record has that key; rows of mentioned interfaces that no record refreshes are offline |
| Store.CollectInterfaces | config/atlas_go/internal/scan/dto.go:234-239 | the first loop collects the batch's non-empty interface names |
| Store.LocalDb.constructor | config/atlas_go/internal/scan/dto.go:228-232 | an opened store with the given tables |
| Store.LocalDb.Upsert | config/atlas_go/internal/scan/dto.go:252-279 | the table becomes the upserted table, or is unchanged when the statement is refused, whose error is returned |
| Store.LocalDb.MarkInterfaceOffline | config/atlas_go/internal/scan/dto.go:241 | one scoped UPDATE |
| Store.LocalDb.MarkAllOffline | config/atlas_go/internal/scan/deep_scan.go:272 | the unscoped UPDATE |
| Store.LocalDb.SaveHostsToDB | config/atlas_go/internal/scan/dto.go:224-250 | an empty batch returns before opening; an open error is returned unchanged; otherwise the table becomes the saved table and the first refusal's error is returned |
| Store.LocalDb.MarkInterfacesOffline | config/atlas_go/internal/scan/dto.go:240-242 | the offline loop, in any order of the names |
| Store.LocalDb.UpsertBatch | config/atlas_go/internal/scan/dto.go:244-249 | upserts in order, stopping at the first refused one, whose error is returned |
| Store.LocalDb.RecordExternalIp | config/atlas_go/internal/scan/fastscan.go:90-99 | INSERT OR IGNORE then touch last_seen: the address has one row, seen now; the hosts table is untouched |
| Store.RecordExternalIpOneRow | config/atlas_go/internal/scan/fastscan.go:90-99 | recording an address twice leaves one row, touched at the later time |
| Remote.Endpoint | config/atlas_go/internal/scan/remote.go:31-38 | an error and no URL exactly when the config is not enabled (controller URL, site ID and agent ID all set) |
| Remote.CleanSimpleSegments | config/atlas_go/internal/scan/remote.go:36 | path cleaning leaves simple segments as they are |
| Remote.IngestPathSimple | config/atlas_go/internal/scan/remote.go:36 | with simple IDs the joined path is "sites/<site>/agents/<agent>/ingest" |
| Remote.EndpointSimple | config/atlas_go/internal/scan/remote.go:35-37 | the URL without trailing slashes, then "/sites/<site>/agents/<agent>/ingest" |
| Remote.EndpointExample | config/atlas_go/internal/scan/remote.go:35-37 | "https://ctrl.example.com/api/", "site1", "agent1" give "https://ctrl.example.com/api/sites/site1/agents/agent1/ingest" |
| Remote.EndpointIgnoresTrailingSlashes | config/atlas_go/internal/scan/remote.go:35 | extra trailing slashes on a non-empty URL never change the endpoint |
| Remote.Headers | config/atlas_go/internal/scan/remote.go:58-61 | Content-Type is always application/json; Authorization "Bearer <token>" is present exactly when the token is non-empty |
| Remote.ClientFor | config/atlas_go/internal/scan/remote.go:50-53 | the configured client, or one with a 60 second timeout |
| Remote.StatusVerdict | config/atlas_go/internal/scan/remote.go:69-73 | an error carrying the status and the trimmed body exactly when the status is 300 or above |
| Remote.PostPayload | config/atlas_go/internal/scan/remote.go:41-74 | a disabled config, or a request http.NewRequest rejects, sends nothing and returns that error; otherwise one POST to the endpoint with those headers, and the transport's error or the status verdict |
| FastScan.ViaToken | config/atlas_go/internal/scan/fastscan.go:28-33 | the token after the first "via" that has a token after it |
| FastScan.DefaultGateway | config/atlas_go/internal/scan/fastscan.go:21-37 | the command's error, or the first gateway a "default" line names, or "no default gateway found" |
| FastScan.DefaultGatewayFirstMatch | config/atlas_go/internal/scan/fastscan.go:26-36 | the gateway is that of the first line that names one; the lookup fails exactly when no line does |
| FastScan.DefaultGatewayFirstLine | config/atlas_go/internal/scan/fastscan.go:26-35 | a line without a gateway is skipped; a line with one ends the search |
| FastScan.GatewayExample | config/atlas_go/internal/scan/fastscan.go:27-31 | "default via 192.168.1.1 dev eth0" names 192.168.1.1 |
| FastScan.GatewayWithoutVia | config/atlas_go/internal/scan/fastscan.go:27-33 | "default dev wg0" names no gateway |
| FastScan.SweepMapLastWins | config/atlas_go/internal/scan/fastscan.go:45-59 | an address is in the map exactly when a report names it, with the name of the last such report |
| FastScan.RunNmap | config/atlas_go/internal/scan/fastscan.go:39-61 | a failed sweep returns its error; otherwise the loop builds the sweep map of the report lines |
| FastScan.SweepLines | config/atlas_go/internal/scan/fastscan.go:45-59 | the loop over the output's lines leaves the map of a fold of the per-line step over those lines |
| FastScan.RecordSweepLine | config/atlas_go/internal/scan/fastscan.go:47-57 | one line writes its address and name when it is a report of either shape, and leaves the map alone otherwise |
| FastScan.LinesSweepIsSweepMap | config/atlas_go/internal/scan/fastscan.go:45-59 | folding the per-line step over the lines gives the sweep map of the hosts the report lines name, in order |
| FastScan.FastRecord | config/atlas_go/internal/scan/fastscan.go:167-187 | OS, MAC and summary "Unknown", no ports, next hop the gateway, network "LAN", online, the interface name; metadata scanner "fastscan" and the subnet, gateway_ip only when the gateway is non-empty |
| FastScan.FastRecordProjection | config/atlas_go/internal/scan/fastscan.go:167-187 | such a record is stored with "Unknown" ports and sent without ports |
| FastScan.InterfaceBatch | config/atlas_go/internal/scan/fastscan.go:167-188 | one record per swept address, in some order of the map |
| FastScan.GatewayOrEmpty | config/atlas_go/internal/scan/fastscan.go:152-156 | the gateway, or "" when the lookup fails |
| FastScan.InterfaceSegment | config/atlas_go/internal/scan/fastscan.go:159-188 | a failing sweep contributes nothing; otherwise one record per address |
| FastScan.FastScanCore | config/atlas_go/internal/scan/fastscan.go:138-193 | an interface-detection failure is the error; a gateway failure gives ""; the result is one listing per interface in order, nothing for a failing sweep |
| FastScan.ExternalIpOrder | config/atlas_go/internal/scan/fastscan.go:64-81 | the services are asked in order; the first non-empty answer ends the search, even when it trims to "" |
| FastScan.SelectExternalIp | config/atlas_go/internal/scan/fastscan.go:69-76 | the search loop returns that address |
| FastScan.UpdateExternalIpInDb | config/atlas_go/internal/scan/fastscan.go:63-102 | the address is recorded only when it is non-empty and the store opens; the hosts table is never touched |
| FastScan.FastScan | config/atlas_go/internal/scan/fastscan.go:104-136 | a core error returns before any write or emit; without skip the save precedes the external-address update and the emit; a save error stops both |
| FastScan.EmitBatch | config/atlas_go/internal/scan/fastscan.go:131-133 | the emit step is emitHosts' treatment of the batch |
| FastScan.SaveAndRecord | config/atlas_go/internal/scan/fastscan.go:124-129 | the save, then the external-address update only when the save succeeds |
| Agent.AgentDefaults | config/atlas_go/internal/scan/agent.go:24-36 | site name falls back to the site ID, version to the build's, a non-positive interval to 15 minutes, an empty command to "deepscan"; set values and identities are kept |
| Agent.AgentDefaultsSettled | config/atlas_go/internal/scan/agent.go:24-36 | after defaulting, the version, interval and command are set, an enabled agent has a site name, and defaulting again changes nothing |
| Agent.ApplyDefaults | config/atlas_go/internal/scan/agent.go:24-36 | the field-by-field updates give the defaulted configuration |
| Agent.Dispatch | config/atlas_go/internal/scan/agent.go:46-61 | "fastscan" and "deepscan" run with the store skipped and the agent's options; any other command is the error "remote agent does not support <cmd>" |
| Agent.DefaultCommandRuns | config/atlas_go/internal/scan/agent.go:33-57 | an empty command runs the deep scan |
| Agent.RunOnce | config/atlas_go/internal/scan/agent.go:46-61 | the returned error is the chosen scan's: the fast scan's interface error or its emission's, with the core result; the deep scan's emission error, with every discovered host probed once; a refused command's own error; the local store is never written |
| Agent.RunRemoteAgent | config/atlas_go/internal/scan/agent.go:20-87 | a disabled config errors before any scan; report k is numbered k + 1 and is the defaulted configuration's scan on the k-th of the initial cycle and the ticks; the initial run's failure is returned; once stops after it; otherwise every tick runs and failing ticks do not stop the loop |
| Agent.RunTicks | config/atlas_go/internal/scan/agent.go:73-85 | after the initial report, one matched report per tick, numbered from 2, whatever each run returns |
| Agent.ReportsMatchSnoc | config/atlas_go/internal/scan/agent.go:73-85 | a run on the next cycle, numbered next, keeps the reports matched to their cycles |
| Agent.ReportsMatchAt | config/atlas_go/internal/scan/agent.go:63-85 | in matched reports, report k is numbered k + 1 and is the scan's result on cycle k |
| Cli.GetenvDefault | config/atlas_go/main.go:170-175 | the value when non-empty, else the fallback |
| Cli.GetenvDefaultNonEmpty | config/atlas_go/main.go:170-175 | a non-empty fallback never gives "" |
| Cli.EnvBool | config/atlas_go/main.go:189-195 | an empty value gives the fallback; any other value is true exactly when lowered it is "1", "true" or "yes" |
| Cli.EnvBoolExamples | config/atlas_go/main.go:189-195 | "YES" and "True" are true, "off" is false even over a true fallback |
| Cli.BindRemoteFlags | config/atlas_go/main.go:139-149 | every field is its flag when given, else its environment variable; the version falls back to ATLAS_AGENT_VERSION and then the build's, so it is never empty when not given |
| Cli.Options | config/atlas_go/main.go:151-168 | an error exactly when a URL is given without a site or an agent; an empty version becomes the build's; the other fields are the flags' |
| Cli.OptionsEnabledIff | config/atlas_go/main.go:151-168 | accepted options post exactly when a controller URL is given |
| Cli.ParseFastScanOptions | config/atlas_go/main.go:77-93 | skip-db is set exactly when --skip-db, --json or an enabled config is |
| Cli.FastScanStoreOrEmit | config/atlas_go/main.go:88-92 | a command-line fast scan never both writes the store and emits |
| Cli.ParseAgentConfig | config/atlas_go/main.go:108-127 | the agent always runs "deepscan" with the given interval and the options; once is the flag when given, else ATLAS_AGENT_ONCE read by envBool with false as the fallback |
| Cli.AgentRunsDeepScan | config/atlas_go/main.go:125 | a command-line agent always dispatches the deep scan without the store |
| Cli.DeepScanCommandOptions | config/atlas_go/main.go:45-50 | the deepscan subcommand uses the store and emits nothing |
| Controller.OrElse | config/scripts/app.py:420-435 | Python's `or`: the first value when truthy, else the second |
| Controller.SiteAfterIngest | config/scripts/app.py:228-243 | a new site is named after the payload's site name or its id; an existing site keeps a non-null name, its description and creation time; only its row changes, and it is never nameless |
| Controller.IngestedHostsKeys | config/scripts/app.py:265-308 | after ingest a key is in the table exactly when it was before or it is (site, agent, ip) of a host in the batch: one row per distinct key |
| Controller.IngestedHostsElsewhere | config/scripts/app.py:265-308 | rows of other sites, agents and IPs are untouched |
| Controller.IngestedHostsLastWins | config/scripts/app.py:265-308 | a repeated IP ends with its last entry's values |
| Controller.SerializeRemoteHost | config/scripts/app.py:198-215 | NULL or empty tags, ports and metadata read back as [], [] and {} |
| Controller.IngestedHostReadsBack | config/scripts/app.py:205-215 | an ingested host reads back with its tags, ports and fields, its metadata or {}, and its last_seen or the ingest time |
| Controller.RegisteredNameFallback | config/scripts/app.py:318-323 | an absent or empty name falls back to the stripped id; a blank-only name is stored as "" |
| Controller.SummaryFor | config/scripts/app.py:417-438 | one site's entry carries its id |
| Controller.SummaryNameChain | config/scripts/app.py:420-428 | the name falls back registry, hosts, agents, id, each when the previous is missing or empty; never empty for a non-empty id; counts default to 0 |
| Controller.StrLtTotal | config/scripts/app.py:417 | the code-point order sorted() uses is total |
| Controller.LeastExists | config/scripts/app.py:417 | every non-empty set of ids has a least element |
| Controller.SortedIds | config/scripts/app.py:415-417 | sorted(): the ids each once, strictly increasing |
| Controller.SummariesOf | config/scripts/app.py:417-438 | the merge loop builds one entry per id, in order |
| Controller.ScriptFor | config/scripts/app.py:486-490 | names outside the allowed scripts give 400 "Invalid script name"; the others their command and log |
| Controller.ScriptLogsListed | config/scripts/app.py:137-150 | every script log is `/config/logs/<name>.log` and list_logs shows it |
| Controller.ListLogs | config/scripts/app.py:563-577 | the directory names that pass the filter, in order, then "container:<name>" per container when docker answers |
| Controller.ListedLogsExactly | config/scripts/app.py:565-571 | a name is listed exactly when it ends ".log" and starts with neither "nmap_tcp_" nor "nmap_udp_" |
| Controller.ControllerDb.constructor | config/scripts/app.py:130-134 | the three remote tables start empty |
| Controller.ControllerDb.IngestRemoteHosts | config/scripts/app.py:218-313 | an empty batch is refused with 400 and no table changes; otherwise the site placeholder, the agent row (overwritten) and each host are upserted, and hosts_processed is the batch size |
| Controller.ControllerDb.RegisterSite | config/scripts/app.py:316-349 | a blank stripped id gives 400 and no change; otherwise name and description are overwritten, created_at is kept for an existing site, and the reply echoes them |
| Controller.ControllerDb.GetSiteSummary | config/scripts/app.py:352-440 | one entry per site of the union of the three tables, no id twice, in strictly increasing id order, each the fallback merge |

## Left out

- External processes, files, DNS, ping, interface detection and HTTP are inputs; their output formats are taken as given text.
- SQL itself is not modelled: each statement is a map update; connection handling, row ids (`id` AUTOINCREMENT) and column types are left out.
- The goroutine fan-out of DeepScan is a sequential loop that may take the hosts in any order; the interleaving and the mutex are not modelled, and the upserts happen in batch order.
- Timestamps are opaque values. RFC3339 and SQLite formatting, `time.Now` per host (one `now` per batch here) and `CURRENT_TIMESTAMP` are left out.
- JSON encoding and decoding are left out: a JSON column holds the value it encodes, and the metadata values are strings.
- Go's `regexp` is modelled only for the two patterns used, as substring searches over a single log line (a line never holds a newline).
- `path.Join` is modelled only for relative segment lists; IDs with "/", "." or ".." are cleaned but not characterised further.
- DeepScan.DeepScan: a failure of the initial "mark all offline" UPDATE is only logged by the source; the model treats that UPDATE as always applied.
- Store.LocalDb.SaveHostsToDB: the source discards the error of each per-interface "mark offline" UPDATE; the model treats those UPDATEs as always applied.
- Store.LocalDb.RecordExternalIp: the source discards the errors of its INSERT OR IGNORE and UPDATE; the model treats both as always applied.
- DeepScan.EstimatedLeftBounds: Go's `time.Duration` is 64-bit; the model's integers do not overflow.
- Cli.EnvBool: Go lowers with Unicode case mapping, the model with ASCII; no non-ASCII letter lowers into "1", "true" or "yes", so the verdict is the same.
- `envDuration` and `time.ParseDuration` are left out: the interval is an input of `Cli.ParseAgentConfig` (the `--once` default is derived from the environment). Flag-parsing errors and the `main` switch, usage text and `dockerscan`/`initdb` subcommands are left out.
- The agent's ticker is infinite; the model runs it over a finite sequence of ticks.
- Controller.ControllerDb.GetSiteSummary: the two GROUP BY queries (COALESCE(MAX), COUNT, MAX) are not computed from the tables; their results are parameters.
- Pydantic validation beyond `min_length=1` on `site_id`, FastAPI routing, streaming endpoints, the scheduler and reading log files are left out; the container names are given lines of `docker ps`.
- Running a script (`subprocess.run` with `tee`) is left out; only the name check and the script table are modelled.
- Progress printing and logging are left out.

## A discrepancy between the code and its tests

The port parser keeps an entry only when its state is exactly "open" or
"filtered" (config/atlas_go/internal/scan/deep_scan.go:107). The test file
(config/atlas_go/internal/scan/deep_scan_test.go:5-28) expects entries in
the states "open|filtered" and "unfiltered" to be kept. The model follows
the code. `Parsers.OpenFilteredDropped` and `Parsers.UnfilteredDropped`
prove that such entries are dropped. The retention rule is the predicate
`Parsers.KeepsState`. The tests also split ", "-separated entries, whose
port fields keep a leading blank. `Parsers.LeadingBlankPortIsZero` shows
that those entries get port number 0.
