/**
 * dto.go's emit path: whether a scan emits at all, what emit does with a
 * payload, and how emitHosts wraps a batch of records before emitting it.
 */
module Emission {
  import opened Wrappers
  import opened Records
  import opened Payload
  import opened Remote

  /** RemotePayloadOptions. */
  datatype EmitOptions = EmitOptions(printJson: bool, config: RemoteConfig)

  /** shouldEmit: print the JSON, post it, or both. */
  predicate ShouldEmit(o: EmitOptions) {
    o.printJson || Enabled(o.config)
  }

  /** What emit does: the payload it prints, the POST it makes, and the error it returns. */
  datatype EmitOutcome = EmitOutcome(printed: Option<RemotePayload>, post: Option<PostOutcome>, err: Option<string>)

  const Quiet: EmitOutcome := EmitOutcome(None, None, None)

  /**
   * emit. `reply` is the transport's answer to the POST, when one is made.
   * Marshalling never fails for these payloads, so printing cannot fail.
   */
  function Emit(o: EmitOptions, payload: RemotePayload, reply: Reply): (r: EmitOutcome)
    ensures r.printed.Some? <==> o.printJson
    ensures r.printed.Some? ==> r.printed.value == payload
    ensures r.post.Some? <==> Enabled(o.config)
    ensures r.post.Some? ==> (r.post.value.request.Some? <==> !reply.RequestRejected?)
    ensures r.post.Some? && r.post.value.request.Some? ==> r.post.value.request.value.body == payload
    ensures r.err.Some? ==> Enabled(o.config) && r.err == r.post.value.err
    ensures Enabled(o.config) ==> r.err == r.post.value.err
    ensures !ShouldEmit(o) ==> r == Quiet
  {
    if !ShouldEmit(o) then Quiet
    else
      var printed := if o.printJson then Some(payload) else None;
      if Enabled(o.config) then
        var post := PostPayload(o.config, payload, reply);
        EmitOutcome(printed, Some(post), post.err)
      else EmitOutcome(printed, None, None)
  }

  /** Printing and posting are independent: switching one never changes the other. */
  lemma PrintAndPostIndependent(o: EmitOptions, payload: RemotePayload, reply: Reply, printJson: bool)
    ensures Emit(o.(printJson := printJson), payload, reply).post == Emit(o, payload, reply).post
    ensures Emit(o.(printJson := printJson), payload, reply).err == Emit(o, payload, reply).err
    ensures Enabled(o.config) && !reply.RequestRejected? ==>
      Emit(o.(printJson := printJson), payload, reply).post.value.request.value.url == Endpoint(o.config).value
  {
  }

  /** The site name sent with a batch: the configured name, else the site ID. */
  function SiteNameFor(rc: RemoteConfig): (r: string)
    ensures rc.siteName != "" ==> r == rc.siteName
    ensures rc.siteName == "" ==> r == rc.siteId
  {
    if rc.siteName == "" then rc.siteId else rc.siteName
  }

  /** The agent version sent with a batch: the configured version, else the build's. */
  function AgentVersionFor(rc: RemoteConfig): (r: string)
    ensures rc.agentVersion != "" ==> r == rc.agentVersion
    ensures rc.agentVersion == "" ==> r == ScannerVersion
  {
    if rc.agentVersion == "" then ScannerVersion else rc.agentVersion
  }

  /** The number of records without parsed ports. */
  function CountWithoutPorts(hosts: seq<HostRecord>): (n: nat)
    ensures n <= |hosts|
    decreases |hosts|
  {
    if |hosts| == 0 then 0
    else CountWithoutPorts(hosts[..|hosts| - 1]) + (if hosts[|hosts| - 1].ports == [] then 1 else 0)
  }

  /** No record is counted as port-less exactly when every record has ports. */
  lemma {:induction false} CountWithoutPortsZero(hosts: seq<HostRecord>)
    ensures CountWithoutPorts(hosts) == 0 <==> forall i :: 0 <= i < |hosts| ==> hosts[i].ports != []
    decreases |hosts|
  {
    if |hosts| > 0 {
      var init := hosts[..|hosts| - 1];
      CountWithoutPortsZero(init);
      assert forall i :: 0 <= i < |init| ==> init[i] == hosts[i];
    }
  }

  /** The counting loop of emitHosts: with-ports and without-ports together cover the batch. */
  method CountPorts(hosts: seq<HostRecord>) returns (withPorts: nat, withoutPorts: nat)
    ensures withoutPorts == CountWithoutPorts(hosts)
    ensures withPorts + withoutPorts == |hosts|
  {
    withPorts, withoutPorts := 0, 0;
    for i := 0 to |hosts|
      invariant withoutPorts == CountWithoutPorts(hosts[..i])
      invariant withPorts + withoutPorts == i
    {
      assert hosts[..i + 1][..i] == hosts[..i];
      if |hosts[i].ports| == 0 {
        withoutPorts := withoutPorts + 1;
      } else {
        withPorts := withPorts + 1;
      }
    }
    assert hosts[..|hosts|] == hosts;
  }

  /** What emitHosts does: nothing, or a payload built and emitted together with its port counts. */
  datatype HostsEmission =
    | Skipped
    | Sent(withPorts: nat, withoutPorts: nat, payload: RemotePayload, outcome: EmitOutcome)

  /** The payload emitHosts builds for a batch. */
  function BatchPayload(hosts: seq<HostRecord>, rc: RemoteConfig): RemotePayload {
    RemotePayloadOf(SiteNameFor(rc), AgentVersionFor(rc), hosts)
  }

  /** The error an emission returns: none when it was skipped, else the emit's. */
  function EmitError(e: HostsEmission): Option<string> {
    if e.Sent? then e.outcome.err else None
  }

  /**
   * `e` is what emitHosts does with `hosts`: it is skipped exactly when
   * emission is off or the batch is empty; otherwise the port counts cover the
   * batch and the batch's payload is emitted.
   */
  predicate EmitsBatch(e: HostsEmission, hosts: seq<HostRecord>, opts: EmitOptions, reply: Reply) {
    (e.Sent? <==> ShouldEmit(opts) && hosts != [])
    && (e.Sent? ==>
          e.withPorts + e.withoutPorts == |hosts| && e.withoutPorts == CountWithoutPorts(hosts)
          && e.payload == BatchPayload(hosts, opts.config) && e.outcome == Emit(opts, e.payload, reply))
  }

  /**
   * emitHosts: nothing when emission is off or the batch is empty; otherwise
   * count the records with and without ports, build the payload with the
   * site-name and version fallbacks, and emit it.
   */
  method EmitHosts(hosts: seq<HostRecord>, opts: EmitOptions, reply: Reply)
    returns (r: HostsEmission, err: Option<string>)
    ensures EmitsBatch(r, hosts, opts, reply) && err == EmitError(r)
  {
    if !ShouldEmit(opts) {
      return Skipped, None;
    }
    if |hosts| == 0 {
      return Skipped, None;
    }
    var withPorts, withoutPorts := CountPorts(hosts);
    var siteName := opts.config.siteName;
    if siteName == "" {
      siteName := opts.config.siteId;
    }
    var agentVersion := opts.config.agentVersion;
    if agentVersion == "" {
      agentVersion := ScannerVersion;
    }
    assert siteName == SiteNameFor(opts.config) && agentVersion == AgentVersionFor(opts.config);
    var payload := BuildRemotePayload(siteName, agentVersion, hosts);
    assert payload == BatchPayload(hosts, opts.config);
    var outcome := Emit(opts, payload, reply);
    r, err := Sent(withPorts, withoutPorts, payload, outcome), outcome.err;
  }

  /**
   * A batch emitted to an enabled controller is posted to the configured
   * endpoint with one host payload per record, in order, unless the request is
   * rejected before sending; the error returned is the POST's.
   */
  lemma EmitHostsPosts(hosts: seq<HostRecord>, opts: EmitOptions, reply: Reply)
    requires Enabled(opts.config) && hosts != []
    ensures var p := BatchPayload(hosts, opts.config);
      var post := Emit(opts, p, reply).post.value;
      (post.request.Some? <==> !reply.RequestRejected?)
      && (post.request.Some? ==>
            post.request.value.url == Endpoint(opts.config).value
            && |post.request.value.body.hosts| == |hosts|
            && (forall i :: 0 <= i < |hosts| ==> post.request.value.body.hosts[i] == ToRemoteHostPayload(hosts[i])))
      && (post.err.None? <==> reply.Answered? && reply.response.statusCode < 300)
  {
  }
}
