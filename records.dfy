/**
 * The scanner's data model: ports, per-host records, the ingest payload shapes
 * and the network interfaces a scan walks over.
 */
module Records {
  import opened Wrappers

  /** A wall-clock instant; 0 is Go's zero `time.Time`. */
  type Time = nat

  const ZeroTime: Time := 0

  /** The build label sent as `agent_version` when no other is configured. */
  const ScannerVersion: string := "dev"

  /** A record's free-form metadata; every value the scanner stores is a string. */
  type Metadata = map<string, string>

  /** One port as the controller's RemotePort model sees it. */
  datatype Port = Port(port: int, protocol: string, service: string, state: string)

  /** The parsed ports of a host together with the summary string stored in SQLite. */
  datatype PortDetails = PortDetails(summary: string, ports: seq<Port>)

  /** A live host found by the ping sweep. */
  datatype HostInfo = HostInfo(ip: string, name: string, interfaceName: string)

  /** A local network interface and the subnet it is attached to. */
  datatype Interface = Interface(name: string, subnet: string, ip: string)

  /** The canonical record every scan mode produces for one host. */
  datatype HostRecord = HostRecord(
    ip: string,
    hostname: string,
    os: string,
    mac: string,
    portSummary: string,
    ports: seq<Port>,
    nextHop: string,
    networkName: string,
    interfaceName: string,
    tags: seq<string>,
    note: string,
    metadata: Metadata,
    lastSeen: Time,
    onlineStatus: string)

  /**
   * One host of the ingest body. `None` is a nil slice or map, or an empty
   * `last_seen`: each of them is left out of the JSON.
   */
  datatype RemoteHostPayload = RemoteHostPayload(
    ip: string,
    hostname: string,
    os: string,
    mac: string,
    note: string,
    tags: Option<seq<string>>,
    lastSeen: Option<Time>,
    metadata: Option<Metadata>,
    ports: Option<seq<Port>>)

  /** The top-level ingest body. */
  datatype RemotePayload = RemotePayload(siteName: string, agentVersion: string, hosts: seq<RemoteHostPayload>)
}
