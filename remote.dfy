/**
 * remote.go: when the controller connection is configured, the ingest URL, the
 * request headers and the verdict on the controller's answer.
 */
module Remote {
  import opened Wrappers
  import opened Text
  import opened Records

  /** The part of an http.Client the scanner chooses: its timeout, in seconds. */
  datatype HttpClient = HttpClient(timeoutSeconds: nat)

  /** Connection details for the controller's ingest endpoint; `None` is a nil client. */
  datatype RemoteConfig = RemoteConfig(
    controllerUrl: string,
    siteId: string,
    agentId: string,
    siteName: string,
    agentVersion: string,
    token: string,
    httpClient: Option<HttpClient>)

  /** Enabled: all three mandatory fields are set. */
  predicate Enabled(rc: RemoteConfig) {
    rc.controllerUrl != "" && rc.siteId != "" && rc.agentId != ""
  }

  const IncompleteConfig: string := "remote config incomplete: controller url, site id, and agent id are required"

  /**
   * path.Clean on the segments of a relative path, left to right: empty and "."
   * segments vanish, ".." removes the segment before it or, when there is none
   * to remove, stays.
   */
  function CleanSegments(segs: seq<string>): seq<string>
    decreases |segs|
  {
    if |segs| == 0 then []
    else
      var acc := CleanSegments(segs[..|segs| - 1]);
      var s := segs[|segs| - 1];
      if s == "" || s == "." then acc
      else if s == ".." then
        (if |acc| > 0 && acc[|acc| - 1] != ".." then acc[..|acc| - 1] else acc + [".."])
      else acc + [s]
  }

  /** path.Clean of a path that does not start with "/". */
  function CleanRelative(p: string): string {
    var c := CleanSegments(Split(p, '/'));
    if |c| == 0 then "." else Join(c, "/")
  }

  /** path.Join("sites", site, "agents", agent, "ingest"). */
  function IngestPath(site: string, agent: string): string {
    CleanRelative("sites/" + site + "/agents/" + agent + "/ingest")
  }

  /** The endpoint URL, or the configuration error when the config is incomplete. */
  function Endpoint(rc: RemoteConfig): (r: Result<string, string>)
    ensures r.Err? <==> !Enabled(rc)
    ensures r.Err? ==> r.error == IncompleteConfig
    ensures r.Ok? ==> HasPrefix(r.value, TrimRight(rc.controllerUrl, "/") + "/")
  {
    if !Enabled(rc) then Err(IncompleteConfig)
    else Ok(TrimRight(rc.controllerUrl, "/") + "/" + IngestPath(rc.siteId, rc.agentId))
  }

  /** An ID that path.Join leaves as it is: non-empty, no "/", and neither "." nor "..". */
  predicate SimpleId(id: string) {
    id != "" && id != "." && id != ".." && '/' !in id
  }

  /** Cleaning leaves a list of simple segments as it is. */
  lemma {:induction false} CleanSimpleSegments(segs: seq<string>)
    requires forall i :: 0 <= i < |segs| ==> SimpleId(segs[i])
    ensures CleanSegments(segs) == segs
    decreases |segs|
  {
    if |segs| > 0 {
      CleanSimpleSegments(segs[..|segs| - 1]);
      assert segs[..|segs| - 1] + [segs[|segs| - 1]] == segs;
    }
  }

  /** With simple IDs the ingest path is the plain concatenation. */
  lemma IngestPathSimple(site: string, agent: string)
    requires SimpleId(site) && SimpleId(agent)
    ensures IngestPath(site, agent) == "sites/" + site + "/agents/" + agent + "/ingest"
  {
    var segs := ["sites", site, "agents", agent, "ingest"];
    var p := "sites/" + site + "/agents/" + agent + "/ingest";
    assert Join(segs, "/") == p by {
      assert Join(segs[4..], "/") == "ingest";
      assert Join(segs[3..], "/") == agent + "/" + "ingest";
      assert Join(segs[2..], "/") == "agents" + "/" + (agent + "/" + "ingest");
      assert Join(segs[1..], "/") == site + "/" + ("agents" + "/" + (agent + "/" + "ingest"));
    }
    assert forall i :: 0 <= i < |segs| ==> SimpleId(segs[i]);
    SplitJoin(segs, '/');
    CleanSimpleSegments(segs);
  }

  /**
   * The endpoint of an enabled config with simple IDs: the controller URL without
   * its trailing slashes, then "/sites/<site>/agents/<agent>/ingest".
   */
  lemma EndpointSimple(rc: RemoteConfig)
    requires Enabled(rc) && SimpleId(rc.siteId) && SimpleId(rc.agentId)
    ensures Endpoint(rc) == Ok(TrimRight(rc.controllerUrl, "/") + "/sites/" + rc.siteId + "/agents/" + rc.agentId + "/ingest")
  {
    IngestPathSimple(rc.siteId, rc.agentId);
    var base := TrimRight(rc.controllerUrl, "/");
    assert base + "/" + ("sites/" + rc.siteId + "/agents/" + rc.agentId + "/ingest")
        == base + "/sites/" + rc.siteId + "/agents/" + rc.agentId + "/ingest";
  }

  /** The example from the scanner's documentation, for any config with those three fields. */
  lemma EndpointExample(rc: RemoteConfig)
    requires rc.controllerUrl == "https://ctrl.example.com/api/" && rc.siteId == "site1" && rc.agentId == "agent1"
    ensures Endpoint(rc) == Ok("https://ctrl.example.com/api/sites/site1/agents/agent1/ingest")
  {
    EndpointSimple(rc);
    ExampleBase(rc.controllerUrl);
    ExampleUrl();
  }

  lemma ExampleBase(url: string)
    requires url == "https://ctrl.example.com/api/"
    ensures TrimRight(url, "/") == "https://ctrl.example.com/api"
  {
    assert url[..|url| - 1] == "https://ctrl.example.com/api";
    var base := "https://ctrl.example.com/api";
    assert base[|base| - 1] !in "/";
  }

  lemma ExampleUrl()
    ensures "https://ctrl.example.com/api" + "/sites/" + "site1" + "/agents/" + "agent1" + "/ingest"
         == "https://ctrl.example.com/api/sites/site1/agents/agent1/ingest"
  {
    assert "https://ctrl.example.com/api" + "/sites/" == "https://ctrl.example.com/api/sites/";
    assert "https://ctrl.example.com/api/sites/" + "site1" == "https://ctrl.example.com/api/sites/site1";
    assert "https://ctrl.example.com/api/sites/site1" + "/agents/" == "https://ctrl.example.com/api/sites/site1/agents/";
    assert "https://ctrl.example.com/api/sites/site1/agents/" + "agent1"
        == "https://ctrl.example.com/api/sites/site1/agents/agent1";
    assert "https://ctrl.example.com/api/sites/site1/agents/agent1" + "/ingest"
        == "https://ctrl.example.com/api/sites/site1/agents/agent1/ingest";
  }

  function Slashes(n: nat): (r: string)
    ensures |r| == n && forall i :: 0 <= i < n ==> r[i] == '/'
  {
    if n == 0 then "" else Slashes(n - 1) + "/"
  }

  /** Trailing slashes are cut whatever their number. */
  lemma {:induction false} TrimRightSlashes(url: string, n: nat)
    ensures TrimRight(url + Slashes(n), "/") == TrimRight(url, "/")
    decreases n
  {
    if n > 0 {
      var s := url + Slashes(n);
      assert s[..|s| - 1] == url + Slashes(n - 1);
      assert s[|s| - 1] == '/' && s[|s| - 1] in "/";
      TrimRightSlashes(url, n - 1);
    } else {
      assert url + Slashes(n) == url;
    }
  }

  /**
   * Adding trailing slashes to a non-empty controller URL does not change the
   * endpoint. (An empty URL is the one exception: "" disables the config while
   * "/" does not.)
   */
  lemma EndpointIgnoresTrailingSlashes(rc: RemoteConfig, n: nat)
    requires rc.controllerUrl != ""
    ensures Endpoint(rc.(controllerUrl := rc.controllerUrl + Slashes(n))) == Endpoint(rc)
  {
    TrimRightSlashes(rc.controllerUrl, n);
  }

  /** The request headers PostPayload sets. */
  function Headers(rc: RemoteConfig): (h: map<string, string>)
    ensures "Content-Type" in h && h["Content-Type"] == "application/json"
    ensures "Authorization" in h <==> rc.token != ""
    ensures rc.token != "" ==> h["Authorization"] == "Bearer " + rc.token
    ensures h.Keys <= {"Content-Type", "Authorization"}
  {
    var base := map["Content-Type" := "application/json"];
    if rc.token != "" then base["Authorization" := "Bearer " + rc.token] else base
  }

  /** The client used for the request: the configured one, or one with a 60 second timeout. */
  function ClientFor(rc: RemoteConfig): (c: HttpClient)
    ensures rc.httpClient.None? ==> c.timeoutSeconds == 60
    ensures rc.httpClient.Some? ==> c == rc.httpClient.value
  {
    rc.httpClient.GetOr(HttpClient(60))
  }

  /** The controller's answer: a status code, its status line and the body text. */
  datatype Response = Response(statusCode: int, status: string, body: string)

  /** The POST that PostPayload sends. */
  datatype Request = Request(url: string, headers: map<string, string>, body: RemotePayload, client: HttpClient)

  const IngestFailed: string := "remote ingest failed: "

  /** The verdict on an answer: an error for any status of 300 or above, success below. */
  function StatusVerdict(resp: Response): (r: Option<string>)
    ensures r.None? <==> resp.statusCode < 300
    ensures r.Some? ==> HasPrefix(r.value, IngestFailed + resp.status + " - ")
    ensures r.Some? ==> HasSuffix(r.value, TrimSpace(resp.body))
  {
    if resp.statusCode >= 300 then Some(IngestFailed + resp.status + " - " + TrimSpace(resp.body)) else None
  }

  /**
   * What the outside world does with one POST: http.NewRequest refuses the
   * endpoint (nothing is sent), the transport fails, or the controller answers.
   */
  datatype Reply = RequestRejected(reason: string) | TransportFailed(failure: string) | Answered(response: Response)

  /** What PostPayload does: the request it sends, if any, and the error it returns, if any. */
  datatype PostOutcome = PostOutcome(request: Option<Request>, err: Option<string>)

  /**
   * PostPayload: an incomplete configuration or a rejected request returns its
   * error before anything is sent; otherwise the request goes to the endpoint
   * and the error is the transport's or the status verdict's.
   */
  function PostPayload(rc: RemoteConfig, payload: RemotePayload, reply: Reply): (r: PostOutcome)
    ensures r.request.None? <==> !Enabled(rc) || reply.RequestRejected?
    ensures !Enabled(rc) ==> r.err == Some(IncompleteConfig)
    ensures Enabled(rc) && reply.RequestRejected? ==> r.err == Some(reply.reason)
    ensures r.request.Some? ==>
      r.request.value == Request(Endpoint(rc).value, Headers(rc), payload, ClientFor(rc))
    ensures Enabled(rc) ==> (r.err.None? <==> reply.Answered? && reply.response.statusCode < 300)
    ensures Enabled(rc) && reply.TransportFailed? ==> r.err == Some(reply.failure)
    ensures Enabled(rc) && reply.Answered? ==> r.err == StatusVerdict(reply.response)
  {
    match Endpoint(rc)
    case Err(e) => PostOutcome(None, Some(e))
    case Ok(url) =>
      var req := Request(url, Headers(rc), payload, ClientFor(rc));
      match reply
      case RequestRejected(e) => PostOutcome(None, Some(e))
      case TransportFailed(e) => PostOutcome(Some(req), Some(e))
      case Answered(resp) => PostOutcome(Some(req), StatusVerdict(resp))
  }
}
