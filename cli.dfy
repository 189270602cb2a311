/**
 * The command line's option building: flag values default to environment
 * variables, the remote options are checked, and each subcommand derives the
 * options its scan runs with. The environment is a map in which a missing
 * variable reads as "".
 */
module Cli {
  import opened Wrappers
  import opened Text
  import opened Records
  import opened Remote
  import opened Emission
  import FastScan
  import DeepScan
  import Agent

  type Environment = map<string, string>

  /** os.Getenv: the value, or "" when the variable is unset. */
  function Getenv(env: Environment, key: string): string {
    if key in env then env[key] else ""
  }

  /** getenvDefault: a non-empty value wins over the fallback. */
  function GetenvDefault(env: Environment, key: string, fallback: string): (r: string)
    ensures Getenv(env, key) != "" ==> r == Getenv(env, key)
    ensures Getenv(env, key) == "" ==> r == fallback
  {
    var v := Getenv(env, key);
    if v != "" then v else fallback
  }

  /** Only an empty fallback lets getenvDefault give "". */
  lemma GetenvDefaultNonEmpty(env: Environment, key: string, fallback: string)
    requires fallback != ""
    ensures GetenvDefault(env, key, fallback) != ""
  {
  }

  /** The spellings envBool reads as true, compared after lowering the case. */
  predicate TrueWord(v: string) {
    var vl := ToLowerAscii(v);
    vl == "1" || vl == "true" || vl == "yes"
  }

  /**
   * envBool: an unset or empty variable gives the fallback; any other value is
   * true exactly when it is a true word, so an unknown value is false even
   * when the fallback is true.
   */
  function EnvBool(env: Environment, key: string, fallback: bool): (r: bool)
    ensures Getenv(env, key) == "" ==> r == fallback
    ensures Getenv(env, key) != "" ==> (r <==> TrueWord(Getenv(env, key)))
  {
    var v := Getenv(env, key);
    if v != "" then TrueWord(v) else fallback
  }

  /** Case does not matter, and a value that is not a true word overrides a true fallback. */
  lemma EnvBoolExamples(env: Environment, key: string)
    ensures key in env && env[key] == "YES" ==> EnvBool(env, key, false)
    ensures key in env && env[key] == "True" ==> EnvBool(env, key, false)
    ensures key in env && env[key] == "off" ==> !EnvBool(env, key, true)
  {
    assert ToLowerAscii("YES") == "yes";
    assert ToLowerAscii("True") == "true";
    assert ToLowerAscii("off") == "off";
  }

  /** The values of the remote flags after parsing. */
  datatype RemoteFlags = RemoteFlags(
    remoteUrl: string, siteId: string, siteName: string, agentId: string,
    agentVersion: string, token: string, printJson: bool)

  /**
   * bindRemoteFlags followed by parsing: a flag given on the command line wins,
   * otherwise its default comes from the environment; the agent version
   * defaults to the build's version and `--json` to false.
   */
  function BindRemoteFlags(env: Environment, given: map<string, string>, json: bool): (f: RemoteFlags)
    ensures f.remoteUrl == if "remote" in given then given["remote"] else Getenv(env, "ATLAS_CONTROLLER_URL")
    ensures f.siteId == if "site" in given then given["site"] else Getenv(env, "ATLAS_SITE_ID")
    ensures f.siteName == if "site-name" in given then given["site-name"] else Getenv(env, "ATLAS_SITE_NAME")
    ensures f.agentId == if "agent" in given then given["agent"] else Getenv(env, "ATLAS_AGENT_ID")
    ensures f.agentVersion ==
      if "agent-version" in given then given["agent-version"]
      else GetenvDefault(env, "ATLAS_AGENT_VERSION", ScannerVersion)
    ensures f.token == if "token" in given then given["token"] else Getenv(env, "ATLAS_AGENT_TOKEN")
    ensures "agent-version" !in given ==> f.agentVersion != ""
    ensures f.printJson == json
  {
    var flag := (name: string, dflt: string) => if name in given then given[name] else dflt;
    RemoteFlags(
      flag("remote", Getenv(env, "ATLAS_CONTROLLER_URL")),
      flag("site", Getenv(env, "ATLAS_SITE_ID")),
      flag("site-name", Getenv(env, "ATLAS_SITE_NAME")),
      flag("agent", Getenv(env, "ATLAS_AGENT_ID")),
      flag("agent-version", GetenvDefault(env, "ATLAS_AGENT_VERSION", ScannerVersion)),
      flag("token", Getenv(env, "ATLAS_AGENT_TOKEN")),
      json)
  }

  const SiteAndAgentRequired: string := "--site and --agent are required when --remote is specified"

  /**
   * remoteFlagConfig.options: the remote configuration of the flags, with the
   * build's version when the version is empty; an error exactly when a
   * controller URL is given without a site or an agent.
   */
  function Options(f: RemoteFlags): (r: Result<EmitOptions, string>)
    ensures r.Err? <==> f.remoteUrl != "" && (f.siteId == "" || f.agentId == "")
    ensures r.Err? ==> r.error == SiteAndAgentRequired
    ensures r.Ok? ==> r.value.printJson == f.printJson && r.value.config.agentVersion != ""
    ensures r.Ok? ==> r.value.config.controllerUrl == f.remoteUrl && r.value.config.token == f.token
    ensures r.Ok? ==> r.value.config.siteId == f.siteId && r.value.config.agentId == f.agentId
    ensures r.Ok? ==> r.value.config.siteName == f.siteName && r.value.config.httpClient.None?
    ensures r.Ok? && f.agentVersion != "" ==> r.value.config.agentVersion == f.agentVersion
    ensures r.Ok? && f.agentVersion == "" ==> r.value.config.agentVersion == ScannerVersion
  {
    var cfg := RemoteConfig(f.remoteUrl, f.siteId, f.agentId, f.siteName,
                            if f.agentVersion == "" then ScannerVersion else f.agentVersion, f.token, None);
    if f.remoteUrl != "" && (f.siteId == "" || f.agentId == "") then Err(SiteAndAgentRequired)
    else Ok(EmitOptions(f.printJson, cfg))
  }

  /** Accepted options post exactly when a controller URL was given. */
  lemma OptionsEnabledIff(f: RemoteFlags)
    requires Options(f).Ok?
    ensures Enabled(Options(f).value.config) <==> f.remoteUrl != ""
  {
  }

  /**
   * parseFastScanOptions: `--skip-db`, or any emission (printing or posting),
   * keeps the fast scan away from the local store.
   */
  function ParseFastScanOptions(f: RemoteFlags, skipDb: bool): (r: Result<FastScan.FastScanOptions, string>)
    ensures r.Err? <==> Options(f).Err?
    ensures r.Ok? ==> r.value.remote == Options(f).value
    ensures r.Ok? ==> (r.value.skipDb <==> skipDb || ShouldEmit(r.value.remote))
  {
    match Options(f)
    case Err(e) => Err(e)
    case Ok(opts) =>
      var skip := if !skipDb && (opts.printJson || Enabled(opts.config)) then true else skipDb;
      Ok(FastScan.FastScanOptions(skip, opts))
  }

  /** A fast scan started from the command line writes the local store or emits its batch, never both. */
  lemma FastScanStoreOrEmit(f: RemoteFlags, skipDb: bool)
    requires ParseFastScanOptions(f, skipDb).Ok?
    ensures !ParseFastScanOptions(f, skipDb).value.skipDb ==> !ShouldEmit(ParseFastScanOptions(f, skipDb).value.remote)
  {
  }

  /**
   * parseAgentConfig: the remote options, the interval as given, `--once` when
   * given and otherwise ATLAS_AGENT_ONCE read by envBool with false as the
   * fallback, and always the deep scan.
   */
  function ParseAgentConfig(env: Environment, f: RemoteFlags, interval: int, onceFlag: Option<bool>)
    : (r: Result<Agent.AgentConfig, string>)
    ensures r.Err? <==> Options(f).Err?
    ensures r.Ok? ==> r.value.scanCommand == "deepscan" && r.value.interval == interval
    ensures r.Ok? && onceFlag.Some? ==> r.value.once == onceFlag.value
    ensures r.Ok? && onceFlag.None? ==> r.value.once == EnvBool(env, "ATLAS_AGENT_ONCE", false)
    ensures r.Ok? && onceFlag.None? && Getenv(env, "ATLAS_AGENT_ONCE") == "" ==> !r.value.once
    ensures r.Ok? ==> r.value.remote == Options(f).value.config && r.value.printJson == f.printJson
  {
    var once := if onceFlag.Some? then onceFlag.value else EnvBool(env, "ATLAS_AGENT_ONCE", false);
    match Options(f)
    case Err(e) => Err(e)
    case Ok(opts) => Ok(Agent.AgentConfig(opts.config, interval, once, opts.printJson, "deepscan"))
  }

  /** An agent started from the command line always runs the deep scan, without the local store. */
  lemma AgentRunsDeepScan(env: Environment, f: RemoteFlags, interval: int, onceFlag: Option<bool>)
    requires ParseAgentConfig(env, f, interval, onceFlag).Ok?
    ensures var c := Agent.AgentDefaults(ParseAgentConfig(env, f, interval, onceFlag).value);
      Agent.Dispatch(c).RunDeep? && Agent.Dispatch(c).deep.skipDb
  {
  }

  /** The options of the `deepscan` subcommand: all zero, so the store is used and nothing is emitted. */
  function DeepScanCommandOptions(): (o: DeepScan.DeepScanOptions)
    ensures !o.skipDb && !ShouldEmit(o.remote)
  {
    DeepScan.DeepScanOptions(false, EmitOptions(false, RemoteConfig("", "", "", "", "", "", None)))
  }
}
