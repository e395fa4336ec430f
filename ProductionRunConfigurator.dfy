/**
 * The production run configurator: it reads the production config, keeps the settings that
 * override the workflows' own, sets up every database (recording one logger manager per
 * database that asks for a logging daemon) and creates and configures one workflow manager
 * per workflow entry.
 *
 * Configs are plain records here; the dict-valued config fields are sequences in their
 * iteration order. What a database's configurator reports (`getDBInfo`) is part of its entry.
 */
module ProductionRunConfigurator {
  import opened Wrappers
  import opened LoggerManager
  import opened WorkflowConfigurator
  import opened WorkflowManager
  import opened Exceptions

  /** A database's `logger` section. */
  datatype LoggerConfig = LoggerConfig(launch: Option<bool>)

  /** What a database's configurator reports: host, port and run database. */
  datatype DbInfo = DbInfo(host: string, port: int, dbrun: string)

  /** A database entry of the production config. */
  datatype DatabaseConfig = DatabaseConfig(name: string, logger: Option<LoggerConfig>, dbInfo: DbInfo)

  /** The `production` section, as far as the run configurator and the run manager read it. */
  datatype ProductionSettings = ProductionSettings(eventBrokerHost: Option<string>, logThreshold: Option<int>,
                                                   productionShutdownTopic: Option<string>,
                                                   configurationClass: Option<string>, configCheckCare: int,
                                                   repositoryDirectory: Option<string>)

  /** A workflow entry: its key in the `workflow` dict and what its manager will be configured from. */
  datatype WorkflowEntry = WorkflowEntry(name: string, setup: WorkflowSetup)

  /** The workflow entries are the keys of a dict: no two share a name. */
  predicate DistinctNames(ws: seq<WorkflowEntry>) {
    forall i, j :: 0 <= i < j < |ws| ==> ws[i].name != ws[j].name
  }

  datatype ProductionConfig = ProductionConfig(production: ProductionSettings, databases: seq<DatabaseConfig>,
                                               workflows: seq<WorkflowEntry>, workflowNames: seq<string>)

  /** An override value: the broker host and the shutdown topic are strings, the log threshold an int. */
  datatype OverrideValue = Text(s: string) | Number(n: int)

  const BrokerKey := "execute.eventBrokerHost"
  const ThresholdKey := "execute.logThreshold"
  const TopicKey := "execute.shutdownTopic"

  /** The override map: each key is present exactly when its production field is set, and holds that field's value. */
  function Overrides(p: ProductionSettings): (r: map<string, OverrideValue>)
    ensures r.Keys <= {BrokerKey, ThresholdKey, TopicKey}
    ensures BrokerKey in r <==> p.eventBrokerHost.Some?
    ensures ThresholdKey in r <==> p.logThreshold.Some?
    ensures TopicKey in r <==> p.productionShutdownTopic.Some?
    ensures p.eventBrokerHost.Some? ==> r[BrokerKey] == Text(p.eventBrokerHost.value)
    ensures p.logThreshold.Some? ==> r[ThresholdKey] == Number(p.logThreshold.value)
    ensures p.productionShutdownTopic.Some? ==> r[TopicKey] == Text(p.productionShutdownTopic.value)
  {
    var a := if p.eventBrokerHost.Some? then map[BrokerKey := Text(p.eventBrokerHost.value)] else map[];
    var b := if p.logThreshold.Some? then a[ThresholdKey := Number(p.logThreshold.value)] else a;
    if p.productionShutdownTopic.Some? then b[TopicKey := Text(p.productionShutdownTopic.value)] else b
  }

  /** The database coordinates of the logger manager a database asks for. */
  datatype LoggerSpec = LoggerSpec(dbHost: Option<string>, dbPort: Option<int>, dbName: Option<string>)

  /**
   * The logger manager a database entry asks for: none unless its logger section sets
   * `launch`; with the database's host, port and run database exactly when `launch` is true.
   */
  function LoggerSpecOf(db: DatabaseConfig): (r: Option<LoggerSpec>)
    ensures r.Some? <==> db.logger.Some? && db.logger.value.launch.Some?
    ensures r.Some? ==> (r.value.dbHost.Some? <==> db.logger.value.launch.value)
    ensures r.Some? && r.value.dbHost.Some? ==>
              r.value == LoggerSpec(Some(db.dbInfo.host), Some(db.dbInfo.port), Some(db.dbInfo.dbrun))
    ensures r.Some? && r.value.dbHost.None? ==> r.value == LoggerSpec(None, None, None)
  {
    if db.logger.None? || db.logger.value.launch.None? then None
    else if db.logger.value.launch.value then Some(LoggerSpec(Some(db.dbInfo.host), Some(db.dbInfo.port), Some(db.dbInfo.dbrun)))
    else Some(LoggerSpec(None, None, None))
  }

  /** The logger managers a list of databases asks for, in database order. */
  function LoggerSpecs(dbs: seq<DatabaseConfig>): seq<LoggerSpec> {
    if dbs == [] then []
    else
      var last := LoggerSpecOf(dbs[|dbs| - 1]);
      LoggerSpecs(dbs[..|dbs| - 1]) + (if last.Some? then [last.value] else [])
  }

  /** The logger managers of two lists of databases are those of the first, then those of the second. */
  lemma {:induction false} LoggerSpecsAppend(a: seq<DatabaseConfig>, b: seq<DatabaseConfig>)
    ensures LoggerSpecs(a + b) == LoggerSpecs(a) + LoggerSpecs(b)
    decreases |b|
  {
    if b == [] {
      assert a + b == a;
    } else {
      var last := LoggerSpecOf(b[|b| - 1]);
      var tail := if last.Some? then [last.value] else [];
      assert (a + b)[..|a + b| - 1] == a + b[..|b| - 1];
      assert (a + b)[|a + b| - 1] == b[|b| - 1];
      LoggerSpecsAppend(a, b[..|b| - 1]);
      calc {
        LoggerSpecs(a + b);
        LoggerSpecs(a + b[..|b| - 1]) + tail;
        (LoggerSpecs(a) + LoggerSpecs(b[..|b| - 1])) + tail;
        LoggerSpecs(a) + (LoggerSpecs(b[..|b| - 1]) + tail);
        LoggerSpecs(a) + LoggerSpecs(b);
      }
    }
  }

  /** At most one logger manager per database, and none from databases that do not ask for one. */
  lemma {:induction false} LoggerSpecsAtMostOnePerDatabase(dbs: seq<DatabaseConfig>)
    ensures |LoggerSpecs(dbs)| <= |dbs|
    ensures (forall k :: 0 <= k < |dbs| ==> LoggerSpecOf(dbs[k]).None?) ==> LoggerSpecs(dbs) == []
  {
    if dbs != [] {
      LoggerSpecsAtMostOnePerDatabase(dbs[..|dbs| - 1]);
    }
  }

  /** The position of the first workflow entry whose configurator gives no launcher. */
  function FirstUnconfigured(ws: seq<WorkflowEntry>): (r: Option<nat>)
    ensures r.Some? ==> r.value < |ws| && ws[r.value].setup.launcher.None? &&
                        forall j :: 0 <= j < r.value ==> ws[j].setup.launcher.Some?
    ensures r.None? <==> forall j :: 0 <= j < |ws| ==> ws[j].setup.launcher.Some?
  {
    if ws == [] then None
    else if ws[0].setup.launcher.None? then Some(0)
    else
      var r := FirstUnconfigured(ws[1..]);
      if r.Some? then Some(r.value + 1) else None
  }

  /** Why `configure` raises. */
  datatype ConfigureError =
    | NoSpecializedConfigure          // `specializedConfigure` is called, but only `_specializedConfigure` exists: AttributeError
    | WorkflowNotConfigured(summary: string)

  const LauncherError := "error configuring workflowLauncher"

  /** A logger manager built for `spec`, with no process yet. */
  predicate Launches(lm: LoggerManager, spec: LoggerSpec, broker: string, runid: string)
    reads lm
  {
    lm.broker == broker && lm.runid == runid && lm.dbHost == spec.dbHost && lm.dbPort == spec.dbPort &&
    lm.dbName == spec.dbName && lm.process.None?
  }

  /** A workflow manager created for `e` and configured once. */
  predicate ManagedAs(m: WorkflowManager, e: WorkflowEntry, runid: string, repository: string)
    reads m
  {
    m.name == e.name && m.runid == runid && m.repository == repository && m.setup == e.setup &&
    m.configured && m.launcher == e.setup.launcher && m.monitor.None? &&
    m.setupSteps == DatabaseSteps(e.setup.databases) + [SpecializedSetup]
  }

  class ProductionRunConfigurator {
    const runid: string
    const config: ProductionConfig
    const repository: string
    const eventBrokerHost: Option<string>
    var configOverrides: map<string, OverrideValue>
    var databaseConfigurators: seq<DatabaseConfig>
    var loggerManagers: seq<LoggerManager>

    /** The overrides are taken from the production section; no database or logger is recorded yet. */
    constructor (runid: string, config: ProductionConfig, repository: string)
      ensures this.runid == runid && this.config == config && this.repository == repository
      ensures eventBrokerHost == config.production.eventBrokerHost
      ensures configOverrides == Overrides(config.production)
      ensures databaseConfigurators == [] && loggerManagers == []
    {
      this.runid := runid;
      this.config := config;
      this.repository := repository;
      databaseConfigurators := [];
      loggerManagers := [];
      var production := config.production;
      var overrides: map<string, OverrideValue> := map[];
      if production.eventBrokerHost.Some? {
        overrides := overrides[BrokerKey := Text(production.eventBrokerHost.value)];
      }
      if production.logThreshold.Some? {
        overrides := overrides[ThresholdKey := Number(production.logThreshold.value)];
      }
      if production.productionShutdownTopic.Some? {
        overrides := overrides[TopicKey := Text(production.productionShutdownTopic.value)];
      }
      eventBrokerHost := production.eventBrokerHost;
      configOverrides := overrides;
    }

    /** The database loop of `configure`: one configurator per database and the logger managers they ask for, in order. */
    method SetupDatabases()
      modifies this
      ensures databaseConfigurators == old(databaseConfigurators) + config.databases
      ensures |loggerManagers| == |old(loggerManagers)| + |LoggerSpecs(config.databases)|
      ensures loggerManagers[..|old(loggerManagers)|] == old(loggerManagers)
      ensures forall k :: |old(loggerManagers)| <= k < |loggerManagers| ==>
                fresh(loggerManagers[k]) &&
                Launches(loggerManagers[k], LoggerSpecs(config.databases)[k - |old(loggerManagers)|], Show(eventBrokerHost), runid)
      ensures configOverrides == old(configOverrides)
    {
      var dbs := config.databases;
      var k := 0;
      while k < |dbs|
        invariant 0 <= k <= |dbs|
        invariant databaseConfigurators == old(databaseConfigurators) + dbs[..k]
        invariant |loggerManagers| == |old(loggerManagers)| + |LoggerSpecs(dbs[..k])|
        invariant loggerManagers[..|old(loggerManagers)|] == old(loggerManagers)
        invariant forall j :: |old(loggerManagers)| <= j < |loggerManagers| ==>
                    fresh(loggerManagers[j]) &&
                    Launches(loggerManagers[j], LoggerSpecs(dbs[..k])[j - |old(loggerManagers)|], Show(eventBrokerHost), runid)
        invariant configOverrides == old(configOverrides)
      {
        var databaseConfig := dbs[k];
        assert dbs[..k + 1][..k] == dbs[..k];
        assert dbs[..k + 1] == dbs[..k] + [databaseConfig];
        var spec := LoggerSpecOf(databaseConfig);
        if spec.Some? {
          var lm := new LoggerManager(Show(eventBrokerHost), runid, spec.value.dbHost, spec.value.dbPort, spec.value.dbName);
          loggerManagers := loggerManagers + [lm];
        }
        databaseConfigurators := databaseConfigurators + [databaseConfig];
        k := k + 1;
      }
      assert dbs[..k] == dbs;
    }

    /** The workflow loop of `configure`: a configured manager per entry, in order, until an entry gives no launcher. */
    method CreateWorkflowManagers() returns (r: Result<seq<WorkflowManager>, ConfigureError>)
      ensures FirstUnconfigured(config.workflows).Some? ==> r == Failure(WorkflowNotConfigured(LauncherError))
      ensures FirstUnconfigured(config.workflows).None? ==>
                r.Success? && |r.value| == |config.workflows| &&
                (forall k :: 0 <= k < |r.value| ==> fresh(r.value[k]) && ManagedAs(r.value[k], config.workflows[k], runid, repository)) &&
                (forall i, j :: 0 <= i < j < |r.value| ==> r.value[i] != r.value[j])
    {
      var ws := config.workflows;
      var managers: seq<WorkflowManager> := [];
      var k := 0;
      while k < |ws|
        invariant 0 <= k <= |ws|
        invariant forall j :: 0 <= j < k ==> ws[j].setup.launcher.Some?
        invariant |managers| == k
        invariant forall j :: 0 <= j < k ==> fresh(managers[j]) && ManagedAs(managers[j], ws[j], runid, repository)
        invariant forall i, j :: 0 <= i < j < k ==> managers[i] != managers[j]
      {
        var wfConfig := ws[k];
        var workflowManager := new WorkflowManager(Some(wfConfig.name), runid, repository, wfConfig.setup);
        var workflowLauncher := workflowManager.Configure();
        if workflowLauncher.None? {
          return Failure(WorkflowNotConfigured(LauncherError));
        }
        managers := managers + [workflowManager];
        k := k + 1;
      }
      return Success(managers);
    }

    /**
     * `configure`: the databases are set up first (their configurators and logger managers are
     * kept even when a later step raises); a set `configurationClass` then raises; otherwise
     * one configured manager per workflow entry is returned, in order.
     */
    method Configure() returns (r: Result<seq<WorkflowManager>, ConfigureError>)
      modifies this
      ensures databaseConfigurators == old(databaseConfigurators) + config.databases
      ensures |loggerManagers| == |old(loggerManagers)| + |LoggerSpecs(config.databases)|
      ensures loggerManagers[..|old(loggerManagers)|] == old(loggerManagers)
      ensures forall k :: |old(loggerManagers)| <= k < |loggerManagers| ==>
                fresh(loggerManagers[k]) &&
                Launches(loggerManagers[k], LoggerSpecs(config.databases)[k - |old(loggerManagers)|], Show(eventBrokerHost), runid)
      ensures config.production.configurationClass.Some? ==> r == Failure(NoSpecializedConfigure)
      ensures config.production.configurationClass.None? && FirstUnconfigured(config.workflows).Some? ==>
                r == Failure(WorkflowNotConfigured(LauncherError))
      ensures config.production.configurationClass.None? && FirstUnconfigured(config.workflows).None? ==>
                r.Success? && |r.value| == |config.workflows| &&
                (forall k :: 0 <= k < |r.value| ==> fresh(r.value[k]) && ManagedAs(r.value[k], config.workflows[k], runid, repository)) &&
                (forall i, j :: 0 <= i < j < |r.value| ==> r.value[i] != r.value[j])
    {
      SetupDatabases();
      if config.production.configurationClass.Some? {
        return Failure(NoSpecializedConfigure);
      }
      r := CreateWorkflowManagers();
    }

    /** `getWorkflowNames`: the production config's list of workflow names, as it stands. */
    function GetWorkflowNames(): (names: seq<string>)
      ensures names == config.workflowNames
    {
      config.workflowNames
    }

    /**
     * `checkConfiguration`: the databases' own checks are given `issueExc`, not the error built
     * here, so nothing is ever added to it and this method's own raise never fires. The
     * database configurators' checks are taken to report nothing and raise nothing.
     */
    method CheckConfiguration(care: int, issueExc: Option<MultiIssueConfigurationError>)
      returns (raised: Option<MultiIssueConfigurationError>)
      ensures raised.None?
    {
      var myProblems: MultiIssueConfigurationError;
      if issueExc.None? {
        myProblems := new MultiIssueConfigurationError(Some(CheckSummary), None);
      } else {
        myProblems := issueExc.value;
      }
      if issueExc.None? && myProblems.HasProblems() {
        return Some(myProblems);
      }
      return None;
    }
  }
}
