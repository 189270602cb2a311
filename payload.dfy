/**
 * The projections of dto.go: the metadata merged into a payload, the textual
 * port summary kept in SQLite, and the JSON-friendly host and batch payloads.
 */
module Payload {
  import opened Wrappers
  import opened Text
  import opened Seqs
  import opened Records

  const InterfaceKey: string := "interface_name"
  const NetworkKey: string := "network_name"
  const NextHopKey: string := "next_hop"

  /** `m` with `key` set to `value` when `value` is non-empty. */
  function SetIfPresent(m: Metadata, key: string, value: string): Metadata {
    if value != "" then m[key := value] else m
  }

  /**
   * metadataForPayload: the record's own metadata with the three network fields
   * added on top, each only when it is set.
   */
  function MergedMetadata(h: HostRecord): (m: Metadata)
    ensures forall k :: k in m <==>
      (k in h.metadata || (k == InterfaceKey && h.interfaceName != "")
       || (k == NetworkKey && h.networkName != "") || (k == NextHopKey && h.nextHop != ""))
    ensures forall k :: (k in h.metadata && k != InterfaceKey && k != NetworkKey && k != NextHopKey
      ==> m[k] == h.metadata[k])
    ensures h.interfaceName != "" ==> m[InterfaceKey] == h.interfaceName
    ensures h.networkName != "" ==> m[NetworkKey] == h.networkName
    ensures h.nextHop != "" ==> m[NextHopKey] == h.nextHop
    ensures h.interfaceName == "" && InterfaceKey in h.metadata ==> m[InterfaceKey] == h.metadata[InterfaceKey]
    ensures h.networkName == "" && NetworkKey in h.metadata ==> m[NetworkKey] == h.metadata[NetworkKey]
    ensures h.nextHop == "" && NextHopKey in h.metadata ==> m[NextHopKey] == h.metadata[NextHopKey]
  {
    SetIfPresent(SetIfPresent(SetIfPresent(h.metadata, InterfaceKey, h.interfaceName),
      NetworkKey, h.networkName), NextHopKey, h.nextHop)
  }

  /**
   * metadataForPayload as the Go code runs it: copy every entry into a fresh
   * map, then add the network fields. The record itself is a value, so its own
   * map cannot change.
   */
  method MetadataForPayload(h: HostRecord) returns (meta: Metadata)
    ensures meta == MergedMetadata(h)
  {
    meta := map[];
    var pending := h.metadata.Keys;
    while pending != {}
      invariant pending <= h.metadata.Keys
      invariant meta == h.metadata - pending
      decreases pending
    {
      var k :| k in pending;
      meta := meta[k := h.metadata[k]];
      pending := pending - {k};
    }
    assert meta == h.metadata;
    if h.interfaceName != "" {
      meta := meta[InterfaceKey := h.interfaceName];
    }
    if h.networkName != "" {
      meta := meta[NetworkKey := h.networkName];
    }
    if h.nextHop != "" {
      meta := meta[NextHopKey := h.nextHop];
    }
  }

  /** One port as PortsSummary renders it: "port/proto", then " (service)", then " [state]". */
  function RenderPort(p: Port): (r: string)
    ensures HasPrefix(r, DecimalString(p.port) + "/" + p.protocol)
    ensures p.service == "" && p.state == "" ==> r == DecimalString(p.port) + "/" + p.protocol
    ensures p.service != "" && p.state == "" ==> r == DecimalString(p.port) + "/" + p.protocol + " (" + p.service + ")"
    ensures p.service == "" && p.state != "" ==> r == DecimalString(p.port) + "/" + p.protocol + " [" + p.state + "]"
    ensures p.service != "" && p.state != "" ==>
      r == DecimalString(p.port) + "/" + p.protocol + " (" + p.service + ")" + " [" + p.state + "]"
  {
    var part := DecimalString(p.port) + "/" + p.protocol;
    var withService := if p.service != "" then part + " (" + p.service + ")" else part;
    if p.state != "" then withService + " [" + p.state + "]" else withService
  }

  function RenderedPorts(ports: seq<Port>): (r: seq<string>)
    ensures |r| == |ports|
    ensures forall i :: 0 <= i < |ports| ==> r[i] == RenderPort(ports[i])
  {
    seq(|ports|, i requires 0 <= i < |ports| => RenderPort(ports[i]))
  }

  /** The summary stored in SQLite: the record's own summary when set, else one rendering per port. */
  function PortsSummary(h: HostRecord): string {
    if h.portSummary != "" then h.portSummary
    else if |h.ports| == 0 then "Unknown"
    else Join(RenderedPorts(h.ports), ", ")
  }

  /** PortsSummary as the Go loop computes it. */
  method ComputePortsSummary(h: HostRecord) returns (s: string)
    ensures s == PortsSummary(h)
  {
    if h.portSummary != "" {
      return h.portSummary;
    }
    if |h.ports| == 0 {
      return "Unknown";
    }
    var readable: seq<string> := [];
    for i := 0 to |h.ports|
      invariant readable == RenderedPorts(h.ports[..i])
    {
      var p := h.ports[i];
      var part := DecimalString(p.port) + "/" + p.protocol;
      if p.service != "" {
        part := part + " (" + p.service + ")";
      }
      if p.state != "" {
        part := part + " [" + p.state + "]";
      }
      assert part == RenderPort(p);
      readable := readable + [part];
    }
    assert h.ports[..|h.ports|] == h.ports;
    s := Join(readable, ", ");
  }

  /** A joined list starts with its first element. */
  lemma JoinStartsWithFirst(parts: seq<string>, sep: string)
    requires |parts| >= 1
    ensures HasPrefix(Join(parts, sep), parts[0])
  {
  }

  /** The first character of any %d rendering is a digit or a minus sign. */
  lemma DecimalStringLead(n: int)
    ensures DecimalString(n)[0] == '-' || IsDigit(DecimalString(n)[0])
  {
  }

  /**
   * PortsSummary is never empty, a record's own summary always wins, and an
   * unset summary reads "Unknown" exactly when the record has no ports.
   */
  lemma PortsSummaryShape(h: HostRecord)
    ensures PortsSummary(h) != ""
    ensures h.portSummary != "" ==> PortsSummary(h) == h.portSummary
    ensures h.portSummary == "" ==> (PortsSummary(h) == "Unknown" <==> h.ports == [])
  {
    if h.portSummary == "" && h.ports != [] {
      var parts := RenderedPorts(h.ports);
      JoinStartsWithFirst(parts, ", ");
      DecimalStringLead(h.ports[0].port);
      var lead := DecimalString(h.ports[0].port) + "/" + h.ports[0].protocol;
      assert HasPrefix(parts[0], lead);
      assert PortsSummary(h)[0] == parts[0][0] == lead[0] == DecimalString(h.ports[0].port)[0];
    }
  }

  /** The port number can be read back from a rendered port, as strconv.Atoi reads it. */
  lemma RenderPortNumberRoundTrip(p: Port)
    requires MinInt64 <= p.port <= MaxInt64
    ensures AtoiValue(BeforeFirst(RenderPort(p), '/')) == p.port
  {
    var d := DecimalString(p.port);
    var r := RenderPort(p);
    assert '/' !in d by {
      if p.port < 0 {
        assert d == "-" + NatString(-p.port);
      }
    }
    assert r == d + ("/" + r[|d| + 1..]);
    BeforeFirstAfter(d, r[|d| + 1..], '/');
    AtoiDecimalString(p.port);
  }

  /** The text before the first `c` of `a + [c] + b` is `a` when `a` holds no `c`. */
  lemma {:induction false} BeforeFirstAfter(a: string, b: string, c: char)
    requires c !in a
    ensures BeforeFirst(a + ([c] + b), c) == a
    decreases |a|
  {
    if a != [] {
      BeforeFirstAfter(a[1..], b, c);
      assert (a + ([c] + b))[1..] == a[1..] + ([c] + b);
    }
  }

  /** An absent JSON container (nil, left out by omitempty) for an empty one, else the value. */
  function NonEmpty<T>(s: seq<T>): (r: Option<seq<T>>)
    ensures r.None? <==> s == []
    ensures r.Some? ==> r.value == s
  {
    if |s| == 0 then None else Some(s)
  }

  /** ToRemoteHostPayload. */
  function ToRemoteHostPayload(h: HostRecord): (p: RemoteHostPayload)
    ensures p.ip == h.ip && p.hostname == h.hostname && p.os == h.os && p.mac == h.mac && p.note == h.note
    ensures p.tags.None? <==> h.tags == []
    ensures p.tags.Some? ==> p.tags.value == h.tags
    ensures p.ports.None? <==> h.ports == []
    ensures p.ports.Some? ==> p.ports.value == h.ports
    ensures p.lastSeen.None? <==> h.lastSeen == ZeroTime
    ensures p.lastSeen.Some? ==> p.lastSeen.value == h.lastSeen
    ensures p.metadata.None? <==> MergedMetadata(h) == map[]
    ensures p.metadata.Some? ==> p.metadata.value == MergedMetadata(h)
  {
    var meta := MergedMetadata(h);
    RemoteHostPayload(
      ip := h.ip, hostname := h.hostname, os := h.os, mac := h.mac, note := h.note,
      tags := NonEmpty(h.tags),
      lastSeen := if h.lastSeen == ZeroTime then None else Some(h.lastSeen),
      metadata := if |meta| > 0 then Some(meta) else None,
      ports := NonEmpty(h.ports))
  }

  /** A host payload in which every present container is non-empty, as omitempty leaves them. */
  predicate Compact(p: RemoteHostPayload) {
    p.tags != Some([]) && p.ports != Some([]) && p.metadata != Some(map[])
  }

  /**
   * The projection is compact, keeps the network fields through the metadata,
   * and never carries the online status or the stored summary.
   */
  lemma ProjectionFacts(h: HostRecord, status: string, summary: string)
    ensures Compact(ToRemoteHostPayload(h))
    ensures ToRemoteHostPayload(h.(onlineStatus := status, portSummary := summary)) == ToRemoteHostPayload(h)
    ensures h.interfaceName != "" ==>
      ToRemoteHostPayload(h).metadata == Some(MergedMetadata(h)) && MergedMetadata(h)[InterfaceKey] == h.interfaceName
  {
    assert MergedMetadata(h.(onlineStatus := status, portSummary := summary)) == MergedMetadata(h);
    if h.interfaceName != "" {
      assert InterfaceKey in MergedMetadata(h);
    }
  }

  /** The batch body BuildRemotePayload produces. */
  function RemotePayloadOf(siteName: string, agentVersion: string, hosts: seq<HostRecord>): (p: RemotePayload)
    ensures p.siteName == siteName && p.agentVersion == agentVersion
    ensures |p.hosts| == |hosts|
    ensures forall i :: 0 <= i < |hosts| ==> p.hosts[i] == ToRemoteHostPayload(hosts[i])
  {
    RemotePayload(siteName, agentVersion, seq(|hosts|, i requires 0 <= i < |hosts| => ToRemoteHostPayload(hosts[i])))
  }

  /** BuildRemotePayload as the Go loop builds it: one host payload per record, in order. */
  method BuildRemotePayload(siteName: string, agentVersion: string, hosts: seq<HostRecord>) returns (p: RemotePayload)
    ensures p == RemotePayloadOf(siteName, agentVersion, hosts)
  {
    var out: seq<RemoteHostPayload> := [];
    for i := 0 to |hosts|
      invariant |out| == i
      invariant forall j :: 0 <= j < i ==> out[j] == ToRemoteHostPayload(hosts[j])
    {
      out := out + [ToRemoteHostPayload(hosts[i])];
    }
    p := RemotePayload(siteName, agentVersion, out);
  }
}
