/**
 * The remote agent: it fills in its configuration's defaults, runs the
 * configured scan once, and then once per tick, shipping each batch to the
 * controller and never writing the local store.
 */
module Agent {
  import opened Wrappers
  import opened Records
  import opened Remote
  import opened Emission
  import opened Store
  import FastScan
  import DeepScan

  /** Go's `time.Duration` counts nanoseconds. */
  const Minute: int := 60 * 1_000_000_000
  const DefaultInterval: int := 15 * Minute
  const DefaultScanCommand: string := "deepscan"

  const NeedsRemote: string := "remote agent requires controller URL, site ID, and agent ID"
  const NotSupportedPrefix: string := "remote agent does not support "

  /** What drives the agent loop; `interval` is a duration in nanoseconds. */
  datatype AgentConfig = AgentConfig(remote: RemoteConfig, interval: int, once: bool, printJson: bool, scanCommand: string)

  /**
   * The configuration after defaulting: the site name falls back to the site
   * ID, the agent version to the build's, a non-positive interval to fifteen
   * minutes and an empty command to "deepscan". A value already set is kept,
   * and the controller's address and identities are untouched.
   */
  function AgentDefaults(cfg: AgentConfig): (c: AgentConfig)
    ensures c.remote.siteName == SiteNameFor(cfg.remote) && c.remote.agentVersion == AgentVersionFor(cfg.remote)
    ensures c.remote.controllerUrl == cfg.remote.controllerUrl && c.remote.siteId == cfg.remote.siteId
    ensures c.remote.agentId == cfg.remote.agentId && c.remote.token == cfg.remote.token
    ensures c.remote.httpClient == cfg.remote.httpClient
    ensures cfg.interval > 0 ==> c.interval == cfg.interval
    ensures cfg.interval <= 0 ==> c.interval == DefaultInterval
    ensures cfg.scanCommand != "" ==> c.scanCommand == cfg.scanCommand
    ensures cfg.scanCommand == "" ==> c.scanCommand == DefaultScanCommand
    ensures c.once == cfg.once && c.printJson == cfg.printJson
    ensures Enabled(c.remote) == Enabled(cfg.remote)
  {
    AgentConfig(
      cfg.remote.(siteName := SiteNameFor(cfg.remote), agentVersion := AgentVersionFor(cfg.remote)),
      if cfg.interval <= 0 then DefaultInterval else cfg.interval,
      cfg.once,
      cfg.printJson,
      if cfg.scanCommand == "" then DefaultScanCommand else cfg.scanCommand)
  }

  /**
   * Defaulting settles the configuration: an enabled agent has a site name,
   * every agent has a version, a positive interval and a command, and
   * defaulting again changes nothing.
   */
  lemma AgentDefaultsSettled(cfg: AgentConfig)
    ensures Enabled(cfg.remote) ==> AgentDefaults(cfg).remote.siteName != ""
    ensures AgentDefaults(cfg).remote.agentVersion != ""
    ensures AgentDefaults(cfg).interval > 0 && AgentDefaults(cfg).scanCommand != ""
    ensures AgentDefaults(AgentDefaults(cfg)) == AgentDefaults(cfg)
  {
    assert ScannerVersion != "";
  }

  /** The defaulting steps, applied one field at a time to a copy of the configuration. */
  method ApplyDefaults(cfg: AgentConfig) returns (c: AgentConfig)
    ensures c == AgentDefaults(cfg)
  {
    c := cfg;
    if c.remote.siteName == "" {
      c := c.(remote := c.remote.(siteName := c.remote.siteId));
    }
    if c.remote.agentVersion == "" {
      c := c.(remote := c.remote.(agentVersion := ScannerVersion));
    }
    if c.interval <= 0 {
      c := c.(interval := DefaultInterval);
    }
    if c.scanCommand == "" {
      c := c.(scanCommand := DefaultScanCommand);
    }
  }

  /** The emission options every run of the agent uses. */
  function RemoteOptions(c: AgentConfig): EmitOptions {
    EmitOptions(c.printJson, c.remote)
  }

  /** What one run of the agent does. */
  datatype ScanChoice =
    | RunFast(fast: FastScan.FastScanOptions)
    | RunDeep(deep: DeepScan.DeepScanOptions)
    | NotSupported(err: string)

  /**
   * runOnce's switch: "fastscan" and "deepscan" run without the local store and
   * with the agent's emission options; any other command is refused by name.
   */
  function Dispatch(c: AgentConfig): (r: ScanChoice)
    ensures r.RunFast? <==> c.scanCommand == "fastscan"
    ensures r.RunDeep? <==> c.scanCommand == "deepscan"
    ensures r.RunFast? ==> r.fast.skipDb && r.fast.remote == RemoteOptions(c)
    ensures r.RunDeep? ==> r.deep.skipDb && r.deep.remote == RemoteOptions(c)
    ensures r.NotSupported? ==> r.err == NotSupportedPrefix + c.scanCommand
  {
    if c.scanCommand == "fastscan" then RunFast(FastScan.FastScanOptions(true, RemoteOptions(c)))
    else if c.scanCommand == "deepscan" then RunDeep(DeepScan.DeepScanOptions(true, RemoteOptions(c)))
    else NotSupported(NotSupportedPrefix + c.scanCommand)
  }

  /** A defaulted configuration never leaves the command empty, so it is never refused for that. */
  lemma DefaultCommandRuns(cfg: AgentConfig)
    requires cfg.scanCommand == ""
    ensures Dispatch(AgentDefaults(cfg)).RunDeep?
  {
  }

  /** The outside world as one run of either scan sees it. */
  datatype Cycle = Cycle(fast: FastScan.FastScanEnv, deep: DeepScan.DeepScanEnv)

  /** What one run of the agent produced: the chosen scan's own results, or nothing for a refused command. */
  datatype RunOutcome =
    | FastRun(hosts: seq<HostRecord>, steps: seq<FastScan.Step>)
    | DeepRun(hostInfos: seq<HostInfo>, batch: seq<HostRecord>, emission: Option<HostsEmission>)
    | Refused

  /**
   * `err` and `outcome` are what the chosen scan returns. The fast scan's error
   * is its interface error or its emission's; the deep scan probes every
   * discovered host once and returns its emission's error; a refused command
   * is its own error.
   */
  ghost predicate RanScan(c: AgentConfig, env: Cycle, err: Option<string>, outcome: RunOutcome) {
    (Dispatch(c).NotSupported? ==> err == Some(Dispatch(c).err) && outcome.Refused?)
    && (Dispatch(c).RunFast? ==> outcome.FastRun?)
    && (Dispatch(c).RunFast? && env.fast.interfaces.Err? ==>
          err == Some(FastScan.InterfacesFailed + env.fast.interfaces.error) && outcome.steps == [])
    && (Dispatch(c).RunFast? && env.fast.interfaces.Ok? ==>
          FastScan.CoreResult(outcome.hosts, env.fast.interfaces.value, env.fast.ipRoute, env.fast.sweep, env.fast.now)
          && |outcome.steps| == 1 && FastScan.EmitStep(outcome.steps[0], outcome.hosts, RemoteOptions(c), env.fast.reply)
          && err == EmitError(outcome.steps[0].emission))
    && (Dispatch(c).RunDeep? ==>
          outcome.DeepRun?
          && outcome.hostInfos == DeepScan.Discovered(DeepScan.ScanInterfaces(env.deep.interfaces), env.deep.sweep)
          && (exists order :: DeepScan.IndexPermutation(order, |outcome.hostInfos|)
                && DeepScan.ProbedInOrder(outcome.batch, order,
                     DeepScan.DeepRecords(outcome.hostInfos, env.deep.probe, env.deep.now)))
          && outcome.emission.Some? && EmitsBatch(outcome.emission.value, outcome.batch, RemoteOptions(c), env.deep.reply)
          && err == EmitError(outcome.emission.value))
  }

  /** runOnce: run the chosen scan and return its error. The local store is never written. */
  method RunOnce(c: AgentConfig, env: Cycle, db: LocalDb) returns (err: Option<string>, outcome: RunOutcome)
    modifies db
    ensures RanScan(c, env, err, outcome)
    ensures db.hosts == old(db.hosts) && db.externalNetworks == old(db.externalNetworks)
  {
    match Dispatch(c)
    case RunFast(opts) =>
      var hosts, steps;
      err, hosts, steps := FastScan.FastScan(opts, env.fast, db);
      outcome := FastRun(hosts, steps);
    case RunDeep(opts) =>
      var hostInfos, batch, emission;
      ghost var order;
      err, hostInfos, batch, emission, order := DeepScan.DeepScan(opts, env.deep, db);
      outcome := DeepRun(hostInfos, batch, emission);
    case NotSupported(msg) =>
      err, outcome := Some(msg), Refused;
  }

  /** One run as the agent logs it: its iteration number (the initial run is 1), its error and its results. */
  datatype RunReport = RunReport(iteration: nat, err: Option<string>, outcome: RunOutcome)

  /** Report `k` is numbered `k + 1` and is the scan's result on the `k`-th cycle. */
  ghost predicate ReportsMatch(c: AgentConfig, cycles: seq<Cycle>, reports: seq<RunReport>)
    decreases |reports|
  {
    |reports| <= |cycles|
    && (|reports| > 0 ==>
          var k := |reports| - 1;
          ReportsMatch(c, cycles, reports[..k])
          && reports[k].iteration == k + 1 && RanScan(c, cycles[k], reports[k].err, reports[k].outcome))
  }

  /** One more run on the next cycle keeps the reports matched. */
  lemma ReportsMatchSnoc(c: AgentConfig, cycles: seq<Cycle>, reports: seq<RunReport>, r: RunReport)
    requires ReportsMatch(c, cycles, reports) && |reports| < |cycles|
    requires r.iteration == |reports| + 1 && RanScan(c, cycles[|reports|], r.err, r.outcome)
    ensures ReportsMatch(c, cycles, reports + [r])
  {
    assert (reports + [r])[..|reports|] == reports;
  }

  /** Matched reports, one at a time: report `k` is numbered `k + 1` and is the run on cycle `k`. */
  lemma {:induction false} ReportsMatchAt(c: AgentConfig, cycles: seq<Cycle>, reports: seq<RunReport>, k: nat)
    requires ReportsMatch(c, cycles, reports) && k < |reports|
    ensures k < |cycles| && reports[k].iteration == k + 1
    ensures RanScan(c, cycles[k], reports[k].err, reports[k].outcome)
    decreases |reports|
  {
    if k < |reports| - 1 {
      ReportsMatchAt(c, cycles, reports[..|reports| - 1], k);
      assert reports[..|reports| - 1][k] == reports[k];
    }
  }

  /**
   * RunRemoteAgent over a finite stretch of ticks. An agent without a complete
   * controller configuration returns an error before any scan. Otherwise the
   * defaulted configuration drives every run: the initial run comes first and
   * its failure is returned; with `once` a successful initial run ends the
   * agent; otherwise every tick runs the scan again, numbered from 2, and a
   * failing tick does not stop the loop. Report `k` is the scan's result on
   * the `k`-th of the initial cycle followed by the ticks.
   */
  method RunRemoteAgent(cfg: AgentConfig, initial: Cycle, ticks: seq<Cycle>, db: LocalDb)
    returns (err: Option<string>, reports: seq<RunReport>)
    modifies db
    ensures !Enabled(cfg.remote) ==> err == Some(NeedsRemote) && reports == []
    ensures Enabled(cfg.remote) ==> |reports| >= 1 && ReportsMatch(AgentDefaults(cfg), [initial] + ticks, reports)
    ensures Enabled(cfg.remote) && reports[0].err.Some? ==> err == reports[0].err && |reports| == 1
    ensures Enabled(cfg.remote) && reports[0].err.None? && cfg.once ==> err.None? && |reports| == 1
    ensures Enabled(cfg.remote) && reports[0].err.None? && !cfg.once ==> err.None? && |reports| == 1 + |ticks|
    ensures Enabled(cfg.remote) && Dispatch(AgentDefaults(cfg)).NotSupported? ==>
      err == Some(NotSupportedPrefix + AgentDefaults(cfg).scanCommand) && |reports| == 1
    ensures db.hosts == old(db.hosts) && db.externalNetworks == old(db.externalNetworks)
  {
    if !Enabled(cfg.remote) {
      return Some(NeedsRemote), [];
    }
    var c := ApplyDefaults(cfg);
    ghost var cycles := [initial] + ticks;
    var first, outcome := RunOnce(c, initial, db);
    ReportsMatchSnoc(c, cycles, [], RunReport(1, first, outcome));
    reports := [RunReport(1, first, outcome)];
    if first.Some? {
      return first, reports;
    }
    if c.once {
      return None, reports;
    }
    reports := RunTicks(c, initial, ticks, reports, db);
    err := None;
  }

  /**
   * The ticker loop of RunRemoteAgent: after the initial run's report, one run
   * per tick, numbered from 2, whatever each run returns.
   */
  method RunTicks(c: AgentConfig, initial: Cycle, ticks: seq<Cycle>, first: seq<RunReport>, db: LocalDb)
    returns (reports: seq<RunReport>)
    requires |first| == 1 && ReportsMatch(c, [initial] + ticks, first)
    modifies db
    ensures |reports| == 1 + |ticks| && reports[0] == first[0]
    ensures ReportsMatch(c, [initial] + ticks, reports)
    ensures db.hosts == old(db.hosts) && db.externalNetworks == old(db.externalNetworks)
  {
    ghost var cycles := [initial] + ticks;
    reports := first;
    var iteration := 1;
    for k := 0 to |ticks|
      invariant iteration == k + 1 && |reports| == k + 1 && reports[0] == first[0]
      invariant ReportsMatch(c, cycles, reports)
      invariant db.hosts == old(db.hosts) && db.externalNetworks == old(db.externalNetworks)
    {
      iteration := iteration + 1;
      var tickErr, tickOutcome := RunOnce(c, ticks[k], db);
      assert cycles[|reports|] == ticks[k];
      ReportsMatchSnoc(c, cycles, reports, RunReport(iteration, tickErr, tickOutcome));
      reports := reports + [RunReport(iteration, tickErr, tickOutcome)];
    }
  }
}
