/**
 * The deep scan's readers of tool output: the `nmap -sn` sweep report, the
 * grepable `-oG` log (its "Ports:" and "OS:" fields), `nbtscan`, reverse DNS
 * and the kernel ARP table.
 */
module Parsers {
  import opened Wrappers
  import opened Text
  import opened Seqs
  import opened Records

  // ---------------------------------------------------------------- port entries

  /** The retention rule of the port parser: only these two states are kept. */
  predicate KeepsState(state: string) {
    state == "open" || state == "filtered"
  }

  /** A kept grepable port entry: its text in the summary and the port it describes. */
  datatype Entry = Entry(part: string, port: Port)

  /** The summary text of a kept port: "port/proto", then " (service)" when the service is known. */
  function PortLabel(portText: string, pt: Port): string {
    var head := portText + "/" + pt.protocol;
    if pt.service != "" then head + " (" + pt.service + ")" else head
  }

  /**
   * One comma-separated entry `port/state/proto/owner/service/...`. The port
   * number is whatever `strconv.Atoi` gives for the first field with its error
   * ignored, so a field that is not a clean integer becomes 0.
   */
  function ParseEntry(p: string): (r: Option<Entry>)
    ensures r.Some? <==> |Split(p, '/')| >= 5 && KeepsState(Split(p, '/')[1])
    ensures r.Some? ==> KeepsState(r.value.port.state) && '/' in r.value.part
    ensures r.Some? ==> var f := Split(p, '/');
      r.value.port == Port(AtoiValue(f[0]), f[2], f[4], f[1])
    ensures r.Some? ==> r.value.part == PortLabel(Split(p, '/')[0], r.value.port)
    ensures r.Some? ==> HasPrefix(r.value.part, Split(p, '/')[0] + "/" + r.value.port.protocol)
  {
    var f := Split(p, '/');
    if |f| < 5 || !KeepsState(f[1]) then None
    else
      var head := f[0] + "/" + f[2];
      var part := if f[4] != "" then head + " (" + f[4] + ")" else head;
      assert part[..|head|] == head && part[|f[0]|] == '/';
      Some(Entry(part, Port(AtoiValue(f[0]), f[2], f[4], f[1])))
  }

  function Parts(es: seq<Entry>): (r: seq<string>)
    ensures |r| == |es| && forall i :: 0 <= i < |es| ==> r[i] == es[i].part
  {
    seq(|es|, i requires 0 <= i < |es| => es[i].part)
  }

  function PortsOf(es: seq<Entry>): (r: seq<Port>)
    ensures |r| == |es| && forall i :: 0 <= i < |es| ==> r[i] == es[i].port
  {
    seq(|es|, i requires 0 <= i < |es| => es[i].port)
  }

  lemma PartsSnoc(es: seq<Entry>, e: Entry)
    ensures Parts(es + [e]) == Parts(es) + [e.part]
    ensures PortsOf(es + [e]) == PortsOf(es) + [e.port]
  {
  }

  /** The entries of a "Ports:" field that survive the state filter, in input order. */
  function KeptEntries(s: string): seq<Entry> {
    FilterMap(Split(s, ','), ParseEntry)
  }

  function Summary(parts: seq<string>): string {
    if |parts| == 0 then "Unknown" else Join(parts, ", ")
  }

  /** What the port parser returns for a "Ports:" field. */
  function PortDetailsOf(s: string): PortDetails {
    var es := KeptEntries(s);
    PortDetails(Summary(Parts(es)), PortsOf(es))
  }

  /** The summary is "Unknown" exactly when no entry was kept. */
  lemma SummaryUnknownIff(es: seq<Entry>)
    requires forall i :: 0 <= i < |es| ==> '/' in es[i].part
    ensures Summary(Parts(es)) == "Unknown" <==> es == []
    ensures Summary(Parts(es)) != ""
  {
    if es != [] {
      var parts := Parts(es);
      var j := Join(parts, ", ");
      assert j[..|parts[0]|] == parts[0];
      var k :| 0 <= k < |parts[0]| && parts[0][k] == '/';
      assert j[k] == '/';
      assert '/' !in "Unknown";
    }
  }

  /** Every kept entry passes the filter, and all the entries that pass are kept. */
  lemma KeptEntriesValid(s: string)
    ensures forall i :: 0 <= i < |KeptEntries(s)| ==>
      '/' in KeptEntries(s)[i].part && KeepsState(KeptEntries(s)[i].port.state)
    ensures forall i :: 0 <= i < |Split(s, ',')| && ParseEntry(Split(s, ',')[i]).Some? ==>
      ParseEntry(Split(s, ',')[i]).value in KeptEntries(s)
  {
    var parts := Split(s, ',');
    FilterMapIndices(parts, ParseEntry);
    var k := SomeIndices(parts, ParseEntry);
    forall i | 0 <= i < |KeptEntries(s)|
      ensures '/' in KeptEntries(s)[i].part && KeepsState(KeptEntries(s)[i].port.state)
    {
      assert ParseEntry(parts[k[i]]) == Some(KeptEntries(s)[i]);
    }
    forall i | 0 <= i < |parts| && ParseEntry(parts[i]).Some?
      ensures ParseEntry(parts[i]).value in KeptEntries(s)
    {
      assert i in k;
      var j :| 0 <= j < |k| && k[j] == i;
      assert ParseEntry(parts[k[j]]) == Some(KeptEntries(s)[j]);
    }
  }

  /**
   * The kept entries are the comma pieces that pass the filter, in their
   * order: piece k[j] produced entry j, k increases, and every passing piece
   * is one of the k[j].
   */
  lemma KeptEntriesInOrder(s: string)
    ensures var parts := Split(s, ','); var k := SomeIndices(parts, ParseEntry);
      |KeptEntries(s)| == |k|
      && (forall j :: 0 <= j < |k| ==> k[j] < |parts| && ParseEntry(parts[k[j]]) == Some(KeptEntries(s)[j]))
      && (forall j, j' :: 0 <= j < j' < |k| ==> k[j] < k[j'])
      && (forall i :: 0 <= i < |parts| ==>
            (|Split(parts[i], '/')| >= 5 && KeepsState(Split(parts[i], '/')[1]) <==> i in k))
  {
    FilterMapIndices(Split(s, ','), ParseEntry);
  }

  /** The summary pieces of the kept pieces `k` of `parts`, labelling `ports[j]` with the text of its port field. */
  function KeptLabels(parts: seq<string>, k: seq<nat>, ports: seq<Port>): seq<string>
    requires |ports| == |k| && forall j :: 0 <= j < |k| ==> k[j] < |parts|
  {
    seq(|k|, j requires 0 <= j < |k| => PortLabel(Split(parts[k[j]], '/')[0], ports[j]))
  }

  /**
   * The ports parsed from a "Ports:" field are those of the passing comma
   * pieces k, in order: port j is read off the slash fields of piece k[j].
   */
  lemma PortDetailsPorts(s: string)
    ensures var parts := Split(s, ','); var k := SomeIndices(parts, ParseEntry); var d := PortDetailsOf(s);
      |d.ports| == |k|
      && (forall j :: 0 <= j < |k| ==> k[j] < |parts| && |Split(parts[k[j]], '/')| >= 5)
      && (forall j :: 0 <= j < |k| ==> var f := Split(parts[k[j]], '/');
            d.ports[j] == Port(AtoiValue(f[0]), f[2], f[4], f[1]))
  {
    var parts := Split(s, ',');
    FilterMapIndices(parts, ParseEntry);
    EntriesOfPieces(parts, SomeIndices(parts, ParseEntry), KeptEntries(s));
  }

  /**
   * Summary piece j labels port j with the port text of its own comma
   * piece, so the summary is rebuilt from the ports alone.
   */
  lemma PortDetailsLabels(s: string)
    ensures var parts := Split(s, ','); var k := SomeIndices(parts, ParseEntry); var d := PortDetailsOf(s);
      |d.ports| == |k| && (forall j :: 0 <= j < |k| ==> k[j] < |parts|)
      && d.summary == Summary(KeptLabels(parts, k, d.ports))
  {
    var parts := Split(s, ',');
    var k := SomeIndices(parts, ParseEntry);
    var es := KeptEntries(s);
    FilterMapIndices(parts, ParseEntry);
    EntriesOfPieces(parts, k, es);
    assert Parts(es) == KeptLabels(parts, k, PortsOf(es));
  }

  /** What each kept piece contributes: its port, and its summary piece labelling that port. */
  lemma EntriesOfPieces(parts: seq<string>, k: seq<nat>, es: seq<Entry>)
    requires |es| == |k|
    requires forall j :: 0 <= j < |k| ==> k[j] < |parts| && ParseEntry(parts[k[j]]) == Some(es[j])
    ensures forall j :: 0 <= j < |k| ==> |Split(parts[k[j]], '/')| >= 5
    ensures forall j :: 0 <= j < |k| ==> var f := Split(parts[k[j]], '/');
      es[j].port == Port(AtoiValue(f[0]), f[2], f[4], f[1]) && es[j].part == PortLabel(f[0], es[j].port)
  {
    forall j | 0 <= j < |k|
      ensures |Split(parts[k[j]], '/')| >= 5
      ensures var f := Split(parts[k[j]], '/');
        es[j].port == Port(AtoiValue(f[0]), f[2], f[4], f[1]) && es[j].part == PortLabel(f[0], es[j].port)
    {
      assert ParseEntry(parts[k[j]]) == Some(es[j]);
    }
  }

  /**
   * parseNmapPorts: keeps the open and filtered entries; the summary lists
   * them as "port/proto" with " (service)" when known, joined by ", ", and is
   * "Unknown" when none is kept; summary pieces and ports correspond one to one.
   */
  method ParseNmapPorts(s: string) returns (d: PortDetails)
    ensures d == PortDetailsOf(s)
    ensures d.summary == "Unknown" <==> d.ports == []
    ensures forall j :: 0 <= j < |d.ports| ==> KeepsState(d.ports[j].state)
  {
    var readable, ports := KeepPortEntries(Split(s, ','));
    var summary := "Unknown";
    if |readable| > 0 {
      summary := Join(readable, ", ");
    }
    d := PortDetails(summary, ports);
    PortDetailsUnknownIff(s);
  }

  /** The entry loop: the readable texts and the ports of the kept entries, in order. */
  method KeepPortEntries(parts: seq<string>) returns (readable: seq<string>, ports: seq<Port>)
    ensures readable == Parts(FilterMap(parts, ParseEntry))
    ensures ports == PortsOf(FilterMap(parts, ParseEntry))
  {
    readable, ports := [], [];
    var i := 0;
    while i < |parts|
      invariant 0 <= i <= |parts|
      invariant readable == Parts(FilterMap(parts[..i], ParseEntry))
      invariant ports == PortsOf(FilterMap(parts[..i], ParseEntry))
    {
      KeptPrefixStep(parts, i);
      readable, ports := KeepPortEntry(readable, ports, parts[i]);
      i := i + 1;
    }
    assert parts[..|parts|] == parts;
  }

  /** The body of the entry loop: the entry of one comma piece, appended when it is kept. */
  method KeepPortEntry(readable: seq<string>, ports: seq<Port>, p: string)
    returns (readable': seq<string>, ports': seq<Port>)
    ensures var e := ParseEntry(p);
      readable' == readable + (if e.Some? then [e.value.part] else [])
      && ports' == ports + (if e.Some? then [e.value.port] else [])
  {
    var entry := ParsePortEntry(p);
    readable', ports' := readable, ports;
    if entry.Some? {
      readable' := readable + [entry.value.part];
      ports' := ports + [entry.value.port];
    }
  }

  /** One more comma piece adds its entry's text and port, when it is kept. */
  lemma KeptPrefixStep(parts: seq<string>, i: nat)
    requires i < |parts|
    ensures var e := ParseEntry(parts[i]);
      Parts(FilterMap(parts[..i + 1], ParseEntry))
        == Parts(FilterMap(parts[..i], ParseEntry)) + (if e.Some? then [e.value.part] else [])
      && PortsOf(FilterMap(parts[..i + 1], ParseEntry))
        == PortsOf(FilterMap(parts[..i], ParseEntry)) + (if e.Some? then [e.value.port] else [])
  {
    FilterMapPrefixStep(parts, i, ParseEntry);
    var e := ParseEntry(parts[i]);
    if e.Some? {
      PartsSnoc(FilterMap(parts[..i], ParseEntry), e.value);
    } else {
      assert FilterMap(parts[..i + 1], ParseEntry) == FilterMap(parts[..i], ParseEntry);
    }
  }

  /** The body of the entry loop: split on '/', keep an open or filtered entry, render "port/proto (service)". */
  method ParsePortEntry(p: string) returns (e: Option<Entry>)
    ensures e == ParseEntry(p)
  {
    var fields := Split(p, '/');
    if |fields| < 5 {
      return None;
    }
    var state, proto, service, portStr := fields[1], fields[2], fields[4], fields[0];
    if state != "open" && state != "filtered" {
      return None;
    }
    var part := portStr + "/" + proto;
    if service != "" {
      part := part + " (" + service + ")";
    }
    var portNum := AtoiValue(portStr);
    e := Some(Entry(part, Port(portNum, proto, service, state)));
  }

  /** Whatever the field, the parsed summary is "Unknown" exactly when no port was kept. */
  lemma PortDetailsUnknownIff(s: string)
    ensures PortDetailsOf(s).summary == "Unknown" <==> PortDetailsOf(s).ports == []
    ensures PortDetailsOf(s).summary != ""
    ensures forall j :: 0 <= j < |PortDetailsOf(s).ports| ==> KeepsState(PortDetailsOf(s).ports[j].state)
  {
    KeptEntriesValid(s);
    SummaryUnknownIff(KeptEntries(s));
  }

  /**
   * An entry whose port field keeps a leading blank (as it does after a comma
   * followed by a space) is kept with port number 0.
   */
  lemma LeadingBlankPortIsZero(p: string)
    requires Split(p, '/') == [" 123", "open", "udp", "", "ntp", "", "", ""]
    ensures ParseEntry(p) == Some(Entry(" 123/udp (ntp)", Port(0, "udp", "ntp", "open")))
  {
    var f := Split(p, '/');
    calc {
      f[0] + "/" + f[2] + " (" + f[4] + ")";
      " 123" + "/" + "udp" + " (" + "ntp" + ")";
      " 123/udp (ntp)";
    }
    LeadingBlankIsNotANumber();
  }

  /** `strconv.Atoi` rejects a number with a leading blank, and its ignored error leaves 0. */
  lemma LeadingBlankIsNotANumber()
    ensures AtoiValue(" 123") == 0
  {
    assert !AllDigits(" 123") by { assert !IsDigit(" 123"[0]); }
  }

  /** The combined state "open|filtered" fails the retention rule, so the entry is dropped. */
  lemma OpenFilteredDropped(p: string)
    requires Split(p, '/') == ["53", "open|filtered", "tcp", "", "domain", "", "", ""]
    ensures ParseEntry(p) == None
  {
    assert !KeepsState("open|filtered");
  }

  /** The state "unfiltered" fails the retention rule, so the entry is dropped. */
  lemma UnfilteredDropped(p: string)
    requires Split(p, '/') == ["80", "unfiltered", "tcp", "", "http", "", "", ""]
    ensures ParseEntry(p) == None
  {
    assert !KeepsState("unfiltered");
  }

  // ---------------------------------------------------------------- sweep report

  const ReportPrefix: string := "Nmap scan report for"

  /**
   * One line of `nmap -sn` output. "Nmap scan report for NAME (IP)" has six
   * fields, "Nmap scan report for IP" five; every other line is ignored.
   */
  function ReportLine(line: string): (r: Option<HostInfo>)
    ensures r.Some? <==>
      (HasPrefix(line, ReportPrefix)
       && (|Fields(line)| == 5 || (|Fields(line)| == 6 && HasPrefix(Fields(line)[5], "("))))
    ensures r.Some? ==> r.value.interfaceName == ""
    ensures r.Some? && |Fields(line)| == 5 ==> r.value == HostInfo(Fields(line)[4], "NoName", "")
    ensures r.Some? && |Fields(line)| == 6 ==>
      r.value.name == Fields(line)[4] && r.value.ip == Trim(Fields(line)[5], "()")
      && (r.value.ip != [] ==> r.value.ip[0] !in "()" && r.value.ip[|r.value.ip| - 1] !in "()")
  {
    if !HasPrefix(line, ReportPrefix) then None
    else
      var f := Fields(line);
      if |f| == 6 && HasPrefix(f[5], "(") then Some(HostInfo(Trim(f[5], "()"), f[4], ""))
      else if |f| == 5 then Some(HostInfo(f[4], "NoName", ""))
      else None
  }

  /** The hosts of a sweep's output, one per report line, in line order. */
  function SweepHosts(out: string): seq<HostInfo> {
    FilterMap(Split(out, '\n'), ReportLine)
  }

  /**
   * The sweep keeps exactly the report lines, in order: line k[j] produced
   * host j, k increases, and every line of either shape is one of the k[j].
   */
  lemma SweepHostsInOrder(out: string)
    ensures var lines := Split(out, '\n'); var k := SomeIndices(lines, ReportLine);
      |SweepHosts(out)| == |k|
      && (forall j :: 0 <= j < |k| ==> k[j] < |lines| && ReportLine(lines[k[j]]) == Some(SweepHosts(out)[j]))
      && (forall j, j' :: 0 <= j < j' < |k| ==> k[j] < k[j'])
      && (forall i :: 0 <= i < |lines| ==> (ReportLine(lines[i]).Some? <==> i in k))
      && (forall j :: 0 <= j < |k| ==> SweepHosts(out)[j].interfaceName == "")
  {
    var lines := Split(out, '\n');
    FilterMapIndices(lines, ReportLine);
    var k := SomeIndices(lines, ReportLine);
    forall j | 0 <= j < |k| ensures SweepHosts(out)[j].interfaceName == "" {
      assert ReportLine(lines[k[j]]) == Some(SweepHosts(out)[j]);
    }
  }

  /**
   * discoverLiveHosts: a failed sweep is returned as its error; otherwise the
   * hosts of the report lines, in order.
   */
  method DiscoverLiveHosts(out: Result<string, string>) returns (r: Result<seq<HostInfo>, string>)
    ensures out.Err? ==> r == Err(out.error)
    ensures out.Ok? ==> r == Ok(SweepHosts(out.value))
  {
    if out.Err? {
      return Err(out.error);
    }
    var hosts := ReportedHosts(Split(out.value, '\n'));
    return Ok(hosts);
  }

  /** discoverLiveHosts' loop: the hosts of the report lines, in order. */
  method ReportedHosts(lines: seq<string>) returns (hosts: seq<HostInfo>)
    ensures hosts == FilterMap(lines, ReportLine)
  {
    hosts := [];
    for i := 0 to |lines|
      invariant hosts == FilterMap(lines[..i], ReportLine)
    {
      var host := ReadReportLine(lines[i]);
      FilterMapPrefixStep(lines, i, ReportLine);
      if host.Some? {
        hosts := hosts + [host.value];
      }
    }
    assert lines[..|lines|] == lines;
  }

  /** The body of the sweep loop: a report line of either shape gives its host. */
  method ReadReportLine(line: string) returns (h: Option<HostInfo>)
    ensures h == ReportLine(line)
  {
    if !HasPrefix(line, ReportPrefix) {
      return None;
    }
    var fields := Fields(line);
    if |fields| == 6 && HasPrefix(fields[5], "(") {
      h := Some(HostInfo(Trim(fields[5], "()"), fields[4], ""));
    } else if |fields| == 5 {
      h := Some(HostInfo(fields[4], "NoName", ""));
    } else {
      h := None;
    }
  }

  // ---------------------------------------------------------------- grepable log

  const PortsTag: string := "Ports: "
  const IgnoredTag: string := "Ignored State:"
  const OsTag: string := "OS: "
  const SeqIndexTag: string := "Seq Index:"

  /**
   * The capture of the pattern `Ports: ([^\n]*?)Ignored State:` on one log
   * line (log lines hold no newline). The leftmost match starts at the first
   * "Ports: ", and the lazy capture stops at the first "Ignored State:" after it.
   */
  function PortsField(line: string): Option<string> {
    var p := Index(line, PortsTag);
    if p < 0 then None
    else
      var rest := line[p + |PortsTag|..];
      var q := Index(rest, IgnoredTag);
      if q < 0 then None else Some(rest[..q])
  }

  /**
   * A capture starts right after the first "Ports: " and runs up to the first
   * "Ignored State:" that starts after it, so it holds no "Ignored State:";
   * there is a capture exactly when some "Ignored State:" starts after the
   * first "Ports: ".
   */
  lemma PortsFieldMatch(line: string)
    ensures var p := Index(line, PortsTag);
      PortsField(line).Some? ==>
        OccursAt(line, PortsTag + PortsField(line).value + IgnoredTag, p)
        && forall i :: p + |PortsTag| <= i < p + |PortsTag| + |PortsField(line).value| ==> !OccursAt(line, IgnoredTag, i)
    ensures PortsField(line).Some? ==> forall i :: 0 <= i ==> !OccursAt(PortsField(line).value, IgnoredTag, i)
    ensures PortsField(line).Some? <==>
      Index(line, PortsTag) >= 0 && exists q :: Index(line, PortsTag) + |PortsTag| <= q && OccursAt(line, IgnoredTag, q)
    ensures (forall i :: 0 <= i ==> !OccursAt(line, PortsTag, i)) ==> PortsField(line).None?
  {
    var p := Index(line, PortsTag);
    if p >= 0 {
      var a := p + |PortsTag|;
      var rest := line[a..];
      var q := Index(rest, IgnoredTag);
      AbsentInSuffix(line, a, IgnoredTag, q);
      if q >= 0 {
        Capture(line, PortsTag, p, rest, IgnoredTag, q);
        OccursInSuffix(line, a, IgnoredTag, q);
      }
    }
  }

  /**
   * A lazy capture between `open` found at `p` and the first `close` after it:
   * the whole match occurs at `p`, and the capture holds no `close`.
   */
  lemma Capture(line: string, open: string, p: int, rest: string, close: string, q: int)
    requires OccursAt(line, open, p) && rest == line[p + |open|..]
    requires |close| > 0 && OccursAt(rest, close, q)
    requires forall i :: 0 <= i < q ==> !OccursAt(rest, close, i)
    ensures OccursAt(line, open + rest[..q] + close, p)
    ensures forall i :: 0 <= i ==> !OccursAt(rest[..q], close, i)
  {
    var cap := rest[..q];
    var w := open + cap + close;
    var a := p + |open|;
    assert p + |w| <= |line|;
    forall k | 0 <= k < |w| ensures line[p + k] == w[k] {
      if k < |open| {
        assert line[p..p + |open|][k] == open[k];
      } else if k < a - p + q {
        assert w[k] == cap[k - |open|] == rest[k - |open|];
      } else {
        assert w[k] == close[k - |open| - q] == rest[q..q + |close|][k - |open| - q];
      }
    }
    assert line[p..p + |w|] == w;
    assert OccursAt(rest, cap, 0) by {
      assert rest[0..q] == cap;
    }
    forall i | 0 <= i ensures !OccursAt(cap, close, i) {
      if OccursAt(cap, close, i) {
        OccursWithin(rest, cap, 0, close, i);
      }
    }
  }

  /**
   * The capture of the pattern `OS: (.*)` on one log line: everything after
   * the first "OS: ", which exists exactly when the line holds "OS: ".
   */
  function OsField(line: string): Option<string> {
    var p := Index(line, OsTag);
    if p < 0 then None else Some(line[p + |OsTag|..])
  }

  /**
   * A capture is the rest of the line after its first "OS: ": the line is the
   * text before that "OS: ", the tag and the capture, and no "OS: " starts
   * earlier. There is one exactly when the line holds "OS: ".
   */
  lemma OsFieldMatch(line: string)
    ensures OsField(line).Some? ==> var p := Index(line, OsTag);
      line == line[..p] + OsTag + OsField(line).value
      && forall i :: 0 <= i < p ==> !OccursAt(line, OsTag, i)
    ensures OsField(line).Some? ==> HasSuffix(line, OsTag + OsField(line).value)
    ensures OsField(line).None? <==> forall i :: 0 <= i ==> !OccursAt(line, OsTag, i)
  {
    var p := Index(line, OsTag);
    if p >= 0 {
      assert line[p..] == line[p..p + |OsTag|] + line[p + |OsTag|..];
      assert line == line[..p] + line[p..];
    }
  }

  /** The text before "Seq Index:", trimmed, when the marker is present; else the text itself. */
  function CutSeqIndex(o: string): string {
    var idx := Index(o, SeqIndexTag);
    if idx != -1 then TrimSpace(o[..idx]) else o
  }

  /** The OS text kept from an "OS:" capture: cut at the first tab, cut before "Seq Index:", trimmed. */
  function CleanOs(raw: string): string {
    TrimSpace(CutSeqIndex(BeforeFirst(raw, '\t')))
  }

  /** Cutting at "Seq Index:" leaves a piece of the text without the marker. */
  lemma CutSeqIndexShape(o: string)
    ensures forall i :: 0 <= i ==> !OccursAt(CutSeqIndex(o), SeqIndexTag, i)
    ensures exists b :: OccursAt(o, CutSeqIndex(o), b)
  {
    var idx := Index(o, SeqIndexTag);
    if idx != -1 {
      var head := o[..idx];
      assert OccursAt(o, head, 0) by {
        assert o[0..idx] == head;
      }
      forall i | 0 <= i ensures !OccursAt(head, SeqIndexTag, i) {
        if OccursAt(head, SeqIndexTag, i) {
          OccursWithin(o, head, 0, SeqIndexTag, i);
        }
      }
      assert CutSeqIndex(o) == TrimSpace(head);
      var b :| OccursAt(head, TrimSpace(head), b);
      AbsentWithin(head, TrimSpace(head), b, SeqIndexTag);
      OccursWithin(o, head, 0, TrimSpace(head), b);
    } else {
      assert CutSeqIndex(o) == o;
      assert OccursAt(o, o, 0) by {
        assert o[0..|o|] == o;
      }
    }
  }

  /**
   * The cleaned OS text is a piece of the capture with no tab, no
   * "Seq Index:" and no surrounding blanks.
   */
  lemma CleanOsShape(raw: string)
    ensures '\t' !in CleanOs(raw)
    ensures forall i :: 0 <= i ==> !OccursAt(CleanOs(raw), SeqIndexTag, i)
    ensures CleanOs(raw) != [] ==> !IsSpace(CleanOs(raw)[0]) && !IsSpace(CleanOs(raw)[|CleanOs(raw)| - 1])
    ensures exists a :: OccursAt(raw, CleanOs(raw), a)
  {
    var o := BeforeFirst(raw, '\t');
    var o2 := CutSeqIndex(o);
    var r := TrimSpace(o2);
    assert OccursAt(raw, o, 0) by {
      assert raw[0..|o|] == raw[..|o|];
    }
    CutSeqIndexShape(o);
    var b :| OccursAt(o, o2, b);
    CharsWithin(o, o2, b, '\t');
    OccursWithin(raw, o, 0, o2, b);
    var c :| OccursAt(o2, r, c);
    AbsentWithin(o2, r, c, SeqIndexTag);
    CharsWithin(o2, r, c, '\t');
    OccursWithin(raw, o2, b, r, c);
  }

  /** "Seq Index:" holds no tab, and its closing ':' occurs nowhere earlier in it. */
  lemma SeqIndexTagShape()
    ensures '\t' !in SeqIndexTag
    ensures forall k :: 0 <= k < |SeqIndexTag| - 1 ==> SeqIndexTag[k] != SeqIndexTag[|SeqIndexTag| - 1]
  {
  }

  /**
   * The OS text is what precedes the first tab, and what precedes
   * "Seq Index:" in that, trimmed: a tab ends it whatever follows, and a
   * text without tab or "Seq Index:" is only trimmed.
   */
  lemma CleanOsCases(a: string, b: string)
    ensures '\t' !in a ==> CleanOs(a + "\t" + b) == CleanOs(a)
    ensures '\t' !in a && Index(a, SeqIndexTag) < 0 ==> CleanOs(a + SeqIndexTag + b) == TrimSpace(a)
    ensures '\t' !in a && Index(a, SeqIndexTag) < 0 ==> CleanOs(a) == TrimSpace(a)
  {
    if '\t' !in a {
      BeforeFirstPrefix(a, [], '\t');
      assert a + [] == a;
      CleanOsAtTab(a, b);
      if Index(a, SeqIndexTag) < 0 {
        CleanOsAtSeqIndex(a, b);
      }
    }
  }

  /** A tab ends the OS text whatever follows it. */
  lemma CleanOsAtTab(a: string, b: string)
    requires '\t' !in a
    ensures CleanOs(a + "\t" + b) == CleanOs(a)
  {
    BeforeFirstPrefix(a, [], '\t');
    assert a + [] == a;
    BeforeFirstPrefix(a, "\t" + b, '\t');
    assert a + "\t" + b == a + ("\t" + b);
  }

  /** Before any tab, the first "Seq Index:" ends the OS text. */
  lemma CleanOsAtSeqIndex(a: string, b: string)
    requires '\t' !in a && Index(a, SeqIndexTag) < 0
    ensures CleanOs(a + SeqIndexTag + b) == TrimSpace(a)
  {
    var c := BeforeFirst(b, '\t');
    var o := a + SeqIndexTag + c;
    assert BeforeFirst(a + SeqIndexTag + b, '\t') == o by {
      SeqIndexTagShape();
      assert '\t' !in a + SeqIndexTag;
      BeforeFirstPrefix(a + SeqIndexTag, b, '\t');
    }
    CutSeqIndexAfter(a, c);
    TrimSpaceIdempotent(a);
  }

  /** The first "Seq Index:" is the one written right after a text without it. */
  lemma CutSeqIndexAfter(a: string, c: string)
    requires Index(a, SeqIndexTag) < 0
    ensures CutSeqIndex(a + SeqIndexTag + c) == TrimSpace(a)
  {
    var o := a + SeqIndexTag + c;
    SeqIndexTagShape();
    IndexAfterPrefix(a, SeqIndexTag, c);
    assert o[..|a|] == a;
  }

  /** How the `-O -Pn -p-` run for one host ended, as the scanner sees it. */
  datatype NmapRun = NmapFailed | LogUnreadable | LogLines(lines: seq<string>)

  const UnknownPorts: PortDetails := PortDetails("Unknown", [])

  /** The port details for the last "Ports:" capture of a log, "Unknown" when there is none. */
  function PortsResult(m: Option<string>): PortDetails {
    match m
    case Some(field) => PortDetailsOf(field)
    case None => UnknownPorts
  }

  /** The OS text a log line sets, if it carries an "OS:" field. */
  function OsLine(line: string): Option<string> {
    match OsField(line)
    case Some(raw) => Some(CleanOs(raw))
    case None => None
  }

  /** The port details of a run: those of the last "Ports:" line, "Unknown" on failure. */
  function PortsOfRun(run: NmapRun): PortDetails {
    if run.LogLines? then PortsResult(LastSome(run.lines, PortsField)) else UnknownPorts
  }

  /** The OS text of a run: that of the last "OS:" line, "" without one, "Unknown" on failure. */
  function OsOfRun(run: NmapRun): string {
    if run.LogLines? then LastSome(run.lines, OsLine).GetOr("") else "Unknown"
  }

  /**
   * Whatever the run, the summary is never empty and reads "Unknown" exactly
   * when no port was kept, and the OS text holds no tab.
   */
  lemma RunResultShape(run: NmapRun)
    ensures PortsOfRun(run).summary != ""
    ensures PortsOfRun(run).summary == "Unknown" <==> PortsOfRun(run).ports == []
    ensures '\t' !in OsOfRun(run)
  {
    if run.LogLines? {
      var m := LastSome(run.lines, PortsField);
      if m.Some? {
        PortDetailsUnknownIff(m.value);
      }
      var k := LastIndex(run.lines, OsLine);
      if k >= 0 {
        CleanOsShape(OsField(run.lines[k]).value);
      }
    }
  }

  /**
   * scanAllTcp: a failed run or an unreadable log gives "Unknown" for both
   * results; otherwise each line's fields overwrite the previous ones, so the
   * last "Ports:" line and the last "OS:" line win, and a log without an "OS:"
   * line gives "". Either way the summary is "Unknown" exactly when no port
   * was kept, and the OS text holds no tab.
   */
  method ScanAllTcp(run: NmapRun) returns (ports: PortDetails, osInfo: string)
    ensures ports == PortsOfRun(run) && osInfo == OsOfRun(run)
    ensures ports.summary == "Unknown" <==> ports.ports == []
    ensures '\t' !in osInfo
  {
    if !run.LogLines? {
      return UnknownPorts, "Unknown";
    }
    var lines := run.lines;
    ports := UnknownPorts;
    osInfo := "";
    var i := 0;
    while i < |lines|
      invariant 0 <= i <= |lines|
      invariant LogScan(ports, osInfo) == ScanLog(lines[..i])
    {
      assert lines[..i + 1][..i] == lines[..i];
      ports, osInfo := ScanLogLine(lines[i], ports, osInfo);
      i := i + 1;
    }
    assert lines[..|lines|] == lines;
    ScanLogLastWins(lines);
    RunResultShape(run);
  }

  /** What the log loop has gathered so far: the current port details and OS text. */
  datatype LogScan = LogScan(ports: PortDetails, os: string)

  /** One line of the log: a "Ports:" capture replaces the ports, an "OS:" capture the OS text. */
  function LogStep(acc: LogScan, line: string): LogScan {
    LogScan(
      if PortsField(line).Some? then PortDetailsOf(PortsField(line).value) else acc.ports,
      if OsLine(line).Some? then OsLine(line).value else acc.os)
  }

  /** The log loop over `lines`, starting from "Unknown" ports and an empty OS text. */
  function ScanLog(lines: seq<string>): LogScan
    decreases |lines|
  {
    if |lines| == 0 then LogScan(UnknownPorts, "")
    else LogStep(ScanLog(lines[..|lines| - 1]), lines[|lines| - 1])
  }

  /** The log loop ends with the details of the last "Ports:" line and the text of the last "OS:" line. */
  lemma {:induction false} ScanLogLastWins(lines: seq<string>)
    ensures ScanLog(lines) == LogScan(PortsResult(LastSome(lines, PortsField)), LastSome(lines, OsLine).GetOr(""))
    decreases |lines|
  {
    if |lines| > 0 {
      var init, line := lines[..|lines| - 1], lines[|lines| - 1];
      assert lines == init + [line];
      ScanLogLastWins(init);
      LastSomeSnoc(init, line, PortsField);
      LastSomeSnoc(init, line, OsLine);
    }
  }

  /** The body of the log loop. */
  method ScanLogLine(line: string, ports: PortDetails, osInfo: string) returns (ports': PortDetails, osInfo': string)
    ensures LogScan(ports', osInfo') == LogStep(LogScan(ports, osInfo), line)
  {
    ports', osInfo' := ports, osInfo;
    var m := PortsField(line);
    if m.Some? {
      ports' := ParseNmapPorts(m.value);
    }
    var o := OsField(line);
    if o.Some? {
      osInfo' := CleanOs(o.value);
    }
  }

  // ---------------------------------------------------------------- name and MAC lookups

  /** An `nbtscan` line "IP NAME ..." naming `ip`. */
  function NbtName(ip: string, line: string): Option<string> {
    var f := Fields(line);
    if |f| >= 2 && f[0] == ip then Some(f[1]) else None
  }

  /**
   * The name nbtscan reports for `ip`: the second field of the first line
   * whose first field is the IP, or "" when no line names it.
   */
  function NbtLookup(ip: string, lines: seq<string>): (r: string)
    ensures r == "" <==> forall i :: 0 <= i < |lines| ==> NbtName(ip, lines[i]).None?
    ensures r != "" ==> exists i :: 0 <= i < |lines| && NbtName(ip, lines[i]) == Some(r)
                          && (forall i' :: 0 <= i' < i ==> NbtName(ip, lines[i']).None?)
  {
    var k := FirstIndex(lines, (l: string) => NbtName(ip, l));
    if k < 0 then ""
    else
      var name := NbtName(ip, lines[k]).value;
      assert name == Fields(lines[k])[1] && name != "";
      name
  }

  /** getNetBIOSName: "" when nbtscan fails, else the lookup in its output lines. */
  function NetBiosName(ip: string, out: Result<string, string>): (r: string)
    ensures out.Err? ==> r == ""
    ensures out.Ok? ==> r == NbtLookup(ip, Split(out.value, '\n'))
  {
    if out.Err? then "" else NbtLookup(ip, Split(out.value, '\n'))
  }

  /** A line of /proc/net/arp "IP HWTYPE FLAGS MAC ..." for `ip`. */
  function ArpMac(ip: string, line: string): Option<string> {
    var f := Fields(line);
    if |f| >= 4 && f[0] == ip then Some(f[3]) else None
  }

  /**
   * getMacAddress: the fourth field of the first line after the header that
   * names the IP; "Unknown" when the table cannot be read or has no such line.
   */
  function MacAddress(ip: string, arp: Option<seq<string>>): (r: string)
    ensures arp.None? ==> r == "Unknown"
    ensures arp.Some? ==> var rows := if |arp.value| == 0 then [] else arp.value[1..];
      ((forall i :: 0 <= i < |rows| ==> ArpMac(ip, rows[i]).None?) ==> r == "Unknown")
      && (r != "Unknown" ==> exists i :: 0 <= i < |rows| && ArpMac(ip, rows[i]) == Some(r)
                               && forall i' :: 0 <= i' < i ==> ArpMac(ip, rows[i']).None?)
    ensures arp.Some? ==> var rows := if |arp.value| == 0 then [] else arp.value[1..];
      forall i :: (0 <= i < |rows| && ArpMac(ip, rows[i]).Some?
                   && (forall i' :: 0 <= i' < i ==> ArpMac(ip, rows[i']).None?)) ==> r == ArpMac(ip, rows[i]).value
  {
    if arp.None? then "Unknown"
    else
      var rows := if |arp.value| == 0 then [] else arp.value[1..];
      var f := (l: string) => ArpMac(ip, l);
      var k := FirstIndex(rows, f);
      if k < 0 then "Unknown" else f(rows[k]).value
  }

  /** The header line of the ARP table is never consulted. */
  lemma ArpHeaderIgnored(ip: string, h1: string, h2: string, rows: seq<string>)
    ensures MacAddress(ip, Some([h1] + rows)) == MacAddress(ip, Some([h2] + rows))
  {
    assert ([h1] + rows)[1..] == rows == ([h2] + rows)[1..];
  }

  /**
   * getHostName: the first reverse-DNS name without its trailing dot;
   * "NoName" when the lookup fails or yields no name.
   */
  function HostName(dns: Result<seq<string>, string>): (r: string)
    ensures dns.Err? || dns.value == [] ==> r == "NoName"
    ensures dns.Ok? && dns.value != [] ==> r == TrimSuffix(dns.value[0], ".")
    ensures dns.Ok? && dns.value != [] && !HasSuffix(dns.value[0], ".") ==> r == dns.value[0]
  {
    if dns.Err? || |dns.value| == 0 then "NoName" else TrimSuffix(dns.value[0], ".")
  }

  /** A name worth keeping: neither empty nor the "NoName" placeholder. */
  predicate Meaningful(name: string) {
    name != "" && name != "NoName"
  }

  /**
   * bestHostName: the sweep's name if meaningful, else the reverse-DNS name if
   * meaningful, else a non-empty NetBIOS name, else "NoName"; never "".
   */
  function BestHostName(ip: string, nmapName: string, dns: Result<seq<string>, string>, nbt: Result<string, string>): (r: string)
    ensures r != ""
    ensures Meaningful(nmapName) ==> r == nmapName
    ensures !Meaningful(nmapName) && Meaningful(HostName(dns)) ==> r == HostName(dns)
    ensures !Meaningful(nmapName) && !Meaningful(HostName(dns)) ==>
      r == (if NetBiosName(ip, nbt) != "" then NetBiosName(ip, nbt) else "NoName")
  {
    if Meaningful(nmapName) then nmapName
    else
      var name := HostName(dns);
      if Meaningful(name) then name
      else
        var nb := NetBiosName(ip, nbt);
        if nb != "" then nb else "NoName"
  }
}
