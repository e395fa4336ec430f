/**
 * The production run manager: it configures the production once (through a run
 * configurator), launches its workflows in order, keeps one monitor per launched workflow,
 * answers whether the production is running, and stops it by asking every workflow
 * manager to stop and then polling them.
 */
module ProductionRunManager {
  import opened Wrappers
  import opened Exceptions
  import opened LoggerManager
  import opened WorkflowMonitor
  import opened CondorWorkflowMonitor
  import opened WorkflowLauncher
  import opened WorkflowManager
  import opened ProductionRunConfigurator

  /** The repository: the given one, else the configured one, resolved against the environment; "." when neither is set. */
  function RepositoryOf(given: Option<string>, configured: Option<string>, resolve: string -> string): (r: string)
    ensures given.Some? && given.value != "" ==> r == resolve(given.value)
    ensures !(given.Some? && given.value != "") && configured.Some? && configured.value != "" ==> r == resolve(configured.value)
    ensures !(given.Some? && given.value != "") && !(configured.Some? && configured.value != "") ==> r == "."
  {
    var repository := if given.Some? && given.value != "" then given else configured;
    if repository.None? || repository.value == "" then "." else resolve(repository.value)
  }

  /** The check care level: 1, unless the production sets a nonzero `configCheckCare`. */
  function CheckCare(configCheckCare: int): (care: int)
    ensures care != 0
    ensures configCheckCare != 0 ==> care == configCheckCare
    ensures configCheckCare == 0 ==> care == 1
  {
    if configCheckCare != 0 then configCheckCare else 1
  }

  /** The configuration check is skipped when asked to, or when the care level is negative. */
  function SkipsCheck(skipConfigCheck: bool, configCheckCare: int): (skip: bool)
    ensures skip <==> skipConfigCheck || configCheckCare < 0
  {
    skipConfigCheck || CheckCare(configCheckCare) < 0
  }

  /** The manager table after `configure`: the managers in order, and each under its name (a later one wins). */
  datatype ManagerTable = ManagerTable(order: seq<WorkflowManager>, byName: map<string, WorkflowManager>)

  /** The name-to-manager part of the table, built in order (a later manager of the same name wins). */
  function ByName(ms: seq<WorkflowManager>): map<string, WorkflowManager> {
    if ms == [] then map[] else ByName(ms[..|ms| - 1])[ms[|ms| - 1].name := ms[|ms| - 1]]
  }

  /** Every manager's name is a key, and every key maps to a manager of the list that carries that name. */
  lemma {:induction false} ByNameSound(ms: seq<WorkflowManager>)
    ensures forall k :: 0 <= k < |ms| ==> ms[k].name in ByName(ms)
    ensures forall n :: n in ByName(ms) ==> ByName(ms)[n].name == n && ByName(ms)[n] in ms
  {
    if ms != [] {
      var front := ms[..|ms| - 1];
      ByNameSound(front);
      forall k | 0 <= k < |ms| - 1 ensures ms[k].name in ByName(ms) {
        assert front[k] == ms[k];
      }
      forall n | n in ByName(ms) ensures ByName(ms)[n] in ms {
        if n != ms[|ms| - 1].name {
          assert ByName(front)[n] in front;
        }
      }
    }
  }

  predicate DistinctManagerNames(ms: seq<WorkflowManager>) {
    forall i, j :: 0 <= i < j < |ms| ==> ms[i].name != ms[j].name
  }

  /** With distinct names, every manager is found under its own name. */
  lemma {:induction false} ByNameDistinct(ms: seq<WorkflowManager>)
    requires DistinctManagerNames(ms)
    ensures forall k :: 0 <= k < |ms| ==> ms[k].name in ByName(ms) && ByName(ms)[ms[k].name] == ms[k]
  {
    if ms != [] {
      var front := ms[..|ms| - 1];
      assert DistinctManagerNames(front) by {
        forall i, j | 0 <= i < j < |front| ensures front[i].name != front[j].name {
          assert front[i] == ms[i] && front[j] == ms[j];
        }
      }
      ByNameDistinct(front);
      forall k | 0 <= k < |ms| ensures ms[k].name in ByName(ms) && ByName(ms)[ms[k].name] == ms[k] {
        if k < |ms| - 1 {
          assert front[k] == ms[k];
          assert ms[k].name != ms[|ms| - 1].name;
        }
      }
    }
  }

  /** The table `configure` builds: the managers in order, and a name-to-manager map filled in the same order. */
  method BuildTable(managers: seq<WorkflowManager>) returns (t: ManagerTable)
    ensures t.order == managers && t.byName == ByName(managers)
  {
    var order: seq<WorkflowManager> := [];
    var byName: map<string, WorkflowManager> := map[];
    var k := 0;
    while k < |managers|
      invariant 0 <= k <= |managers|
      invariant order == managers[..k] && byName == ByName(order)
    {
      assert managers[..k + 1][..k] == managers[..k];
      order := order + [managers[k]];
      byName := byName[managers[k].name := managers[k]];
      k := k + 1;
    }
    assert order == managers;
    return ManagerTable(order, byName);
  }

  /** Managers made from workflow entries with distinct names have distinct names. */
  lemma ManagedNamesDistinct(ms: seq<WorkflowManager>, ws: seq<WorkflowEntry>, runid: string, repository: string)
    requires |ms| == |ws| && DistinctNames(ws)
    requires forall k :: 0 <= k < |ms| ==> ManagedAs(ms[k], ws[k], runid, repository)
    ensures DistinctManagerNames(ms)
  {
    forall i, j | 0 <= i < j < |ms| ensures ms[i].name != ms[j].name {
      assert ManagedAs(ms[i], ws[i], runid, repository) && ManagedAs(ms[j], ws[j], runid, repository);
    }
  }

  /** Freshly configured managers made from entries that all have a launcher can each be launched. */
  lemma ManagedCanLaunch(ms: seq<WorkflowManager>, ws: seq<WorkflowEntry>, runid: string, repository: string)
    requires |ms| == |ws| && FirstUnconfigured(ws).None?
    requires forall k :: 0 <= k < |ms| ==> ManagedAs(ms[k], ws[k], runid, repository)
    ensures AllCanLaunch(ms)
  {
    forall k | 0 <= k < |ms| ensures CanLaunch(ms[k]) {
      assert ManagedAs(ms[k], ws[k], runid, repository);
    }
  }

  /** No two managers share a monitor. */
  predicate MonitorsDistinct(ms: seq<WorkflowManager>)
    reads set k | 0 <= k < |ms| :: ms[k]
  {
    forall i, j :: 0 <= i < j < |ms| && ms[i].monitor.Some? && ms[j].monitor.Some? ==> ms[i].monitor.value != ms[j].monitor.value
  }

  /** Whether `runWorkflow` would launch `m` given started loggers: it is runnable and a launcher is (or will be) configured. */
  predicate CanLaunch(m: WorkflowManager)
    reads m, m.MonitorObjects()
  {
    m.IsRunnable() && (if m.configured then m.launcher else m.setup.launcher).Some?
  }

  /** Every manager of the list can be launched. */
  predicate AllCanLaunch(order: seq<WorkflowManager>)
    reads set k | 0 <= k < |order| :: order[k]
    reads set k, o | 0 <= k < |order| && o in order[k].MonitorObjects() :: o
  {
    forall k :: 0 <= k < |order| ==> CanLaunch(order[k])
  }

  /** What stopping one manager records: the DAG's removal, then the end-of-log event unless it was already sent. */
  function StopEffect(m: WorkflowManager): seq<Action>
    reads m, if m.monitor.Some? then {m.monitor.value} else {}
  {
    if m.monitor.None? then []
    else [CondorRm(m.monitor.value.condorDagId)] +
         (if m.monitor.value.sentLastLoggerEvent then [] else [EndOfLog(m.monitor.value.runid)])
  }

  /** What stopping a list of managers in order records. */
  function StopEffects(ms: seq<WorkflowManager>): seq<Action>
    reads set k | 0 <= k < |ms| :: ms[k]
    reads MonitorsOf(ms)
  {
    if ms == [] then [] else StopEffects(ms[..|ms| - 1]) + StopEffect(ms[|ms| - 1])
  }

  /** Why `runProduction` raises. */
  datatype ProductionError =
    | ConfigureFailed(error: ConfigureError)
    | NoWorkflowManagers                                   // "Failed to obtain workflowManagers from configurator"
    | WorkflowFailed(name: string, result: RunResult)       // a manager's launch did not give a monitor

  /** How `runProduction` ends: refused (returns False), every workflow launched (returns None), or raising. */
  datatype RunOutcome = Refused | Started | Raised(error: ProductionError)

  /** What `checkConfiguration` as written does: passes, or raises one of two Python errors. */
  datatype CheckOutcome = Passed | NameAttributeError | ManagerKeyError

  function NotConfiguredMessage(runid: string): string {
    runid + ": production has not been configured yet"
  }

  /** One pass of the launch loop: `runWorkflow` of the `k`-th manager with a new status listener; no other manager changes. */
  method LaunchAt(order: seq<WorkflowManager>, k: nat, loggerManagers: seq<LoggerManager>) returns (result: RunResult)
    requires k < |order| && DistinctManagerNames(order) && MonitorsDistinct(order)
    modifies order[k]
    ensures MonitorsDistinct(order)
    ensures result.Launched? <==> old(CanLaunch(order[k])) && AllStarted(loggerManagers)
    ensures result.Launched? ==>
              order[k].monitor == Some(result.monitor) && fresh(result.monitor) &&
              result.monitor.base.running && result.monitor.threadStarted
    ensures !result.Launched? ==> order[k].monitor == old(order[k].monitor)
    ensures forall j :: 0 <= j < |order| && j != k ==> CanLaunch(order[j]) == old(CanLaunch(order[j]))
    ensures forall j :: 0 <= j < |order| && j != k ==> order[j].monitor == old(order[j].monitor)
  {
    assert forall j :: 0 <= j < |order| && j != k ==> order[j] != order[k];
    var statusListener := new StatusListener();
    result := order[k].RunWorkflow(Some(statusListener), loggerManagers);
  }

  /**
   * The launch loop of `runProduction`: every manager in order is launched with a new status
   * listener; the monitors are collected in order, and the first launch that gives no monitor
   * stops the loop (the monitors collected so far are kept).
   */
  method LaunchManagers(order: seq<WorkflowManager>, loggerManagers: seq<LoggerManager>)
    returns (monitors: seq<CondorWorkflowMonitor>, failed: Option<ProductionError>)
    requires DistinctManagerNames(order) && MonitorsDistinct(order)
    modifies set k | 0 <= k < |order| :: order[k]
    ensures MonitorsDistinct(order)
    ensures failed.None? <==> old(AllCanLaunch(order)) && (order == [] || AllStarted(loggerManagers))
    ensures failed.Some? ==> failed.value.WorkflowFailed?
    ensures failed.None? ==> |monitors| == |order|
    ensures |monitors| <= |order|
    ensures forall k :: 0 <= k < |monitors| ==> order[k].monitor == Some(monitors[k])
    ensures forall k :: 0 <= k < |monitors| ==> fresh(monitors[k]) && monitors[k].base.running && monitors[k].threadStarted
    ensures forall k :: |monitors| <= k < |order| ==> order[k].monitor == old(order[k].monitor)
  {
    monitors := [];
    var k := 0;
    while k < |order|
      invariant 0 <= k <= |order| && |monitors| == k
      invariant MonitorsDistinct(order)
      invariant forall j :: 0 <= j < k ==> order[j].monitor == Some(monitors[j])
      invariant forall j :: 0 <= j < k ==> fresh(monitors[j]) && monitors[j].base.running && monitors[j].threadStarted
      invariant forall j :: 0 <= j < k ==> old(CanLaunch(order[j]))
      invariant k > 0 ==> AllStarted(loggerManagers)
      invariant forall j :: k <= j < |order| ==> CanLaunch(order[j]) == old(CanLaunch(order[j]))
      invariant forall j :: k <= j < |order| ==> order[j].monitor == old(order[j].monitor)
    {
      var result := LaunchAt(order, k, loggerManagers);
      if !result.Launched? {
        return monitors, Some(WorkflowFailed(order[k].name, result));
      }
      monitors := monitors + [result.monitor];
      k := k + 1;
    }
    return monitors, None;
  }

  /** Some manager of the list reports running. */
  predicate AnyRunning(order: seq<WorkflowManager>)
    reads set k | 0 <= k < |order| :: order[k]
    reads set k, o | 0 <= k < |order| && o in order[k].MonitorObjects() :: o
  {
    exists k :: 0 <= k < |order| && order[k].IsRunning()
  }

  /** The monitors of a list of managers. */
  function MonitorsOf(order: seq<WorkflowManager>): set<CondorWorkflowMonitor>
    reads set k | 0 <= k < |order| :: order[k]
  {
    set k | 0 <= k < |order| && order[k].monitor.Some? :: order[k].monitor.value
  }

  /** The stop loop of `stopProduction`: every manager, in order, is asked to stop; no running flag changes. */
  method StopManagers(order: seq<WorkflowManager>, urgency: int, fx: Effects)
    requires DistinctManagerNames(order) && MonitorsDistinct(order)
    modifies fx, MonitorsOf(order)
    ensures fx.actions == old(fx.actions) + old(StopEffects(order))
  {
    var k := 0;
    while k < |order|
      invariant 0 <= k <= |order|
      invariant fx.actions == old(fx.actions) + old(StopEffects(order[..k]))
      invariant forall j :: k <= j < |order| && order[j].monitor.Some? ==>
                  order[j].monitor.value.sentLastLoggerEvent == old(order[j].monitor.value.sentLastLoggerEvent)
    {
      assert order[..k + 1][..k] == order[..k];
      order[k].StopWorkflow(urgency, fx);
      k := k + 1;
    }
    assert order[..k] == order;
  }

  /** The inner poll of `stopProduction`: each manager's running state in order, up to the first that runs. */
  method PollManagers(order: seq<WorkflowManager>, previous: bool) returns (stillRunning: bool)
    ensures stillRunning == (if order == [] then previous else AnyRunning(order))
  {
    stillRunning := previous;
    var k := 0;
    while k < |order|
      invariant 0 <= k <= |order|
      invariant forall j :: 0 <= j < k ==> !order[j].IsRunning()
      invariant k > 0 ==> !stillRunning
      invariant k == 0 ==> stillRunning == previous
    {
      stillRunning := order[k].IsRunning();
      if stillRunning {
        return;
      }
      k := k + 1;
    }
  }

  /** The wait of `stopProduction`: up to `rounds` polls while something still runs. */
  method WaitForManagers(order: seq<WorkflowManager>, running: bool, rounds: nat) returns (stillRunning: bool)
    ensures stillRunning == (running && (rounds == 0 || order == [] || AnyRunning(order)))
  {
    stillRunning := running;
    var timeout := rounds;
    while stillRunning && timeout > 0
      invariant 0 <= timeout <= rounds
      invariant timeout == rounds ==> stillRunning == running
      invariant timeout < rounds ==> running && stillRunning == (order == [] || AnyRunning(order))
    {
      stillRunning := PollManagers(order, stillRunning);
      timeout := timeout - 1;
    }
  }

  /** A table holds managers with distinct names, each under its own name and each with its own monitor. */
  ghost predicate TableValid(t: ManagerTable)
    reads set k | 0 <= k < |t.order| :: t.order[k]
  {
    DistinctManagerNames(t.order) && t.byName == ByName(t.order) && MonitorsDistinct(t.order)
  }

  class ProductionRunManager {
    const runid: string
    const config: ProductionConfig
    const repository: string
    var running: bool
    var done: bool
    var configurator: Option<ProductionRunConfigurator>
    var workflowManagers: Option<ManagerTable>
    var workflowMonitors: seq<CondorWorkflowMonitor>

    /** The managers in the table. */
    function Managers(): set<WorkflowManager>
      reads this`workflowManagers
    {
      if workflowManagers.None? then {} else set k | 0 <= k < |workflowManagers.value.order| :: workflowManagers.value.order[k]
    }

    /**
     * The table, once built, holds managers with distinct names, each under its own name and
     * each with its own monitor; a monitor exists only after the table does.
     */
    ghost predicate Valid()
      reads this`configurator, this`workflowManagers, this`workflowMonitors, Managers()
    {
      DistinctNames(config.workflows) &&
      (configurator.None? ==> workflowManagers.None?) &&
      (workflowManagers.None? ==> workflowMonitors == []) &&
      (workflowManagers.Some? ==> configurator.Some? && TableValid(workflowManagers.value))
    }

    /**
     * After a launch: the kept monitors are `before` followed by one started, running monitor
     * per manager, in table order, each the one its manager holds.
     */
    predicate Launched(before: seq<CondorWorkflowMonitor>)
      reads this`workflowManagers, this`workflowMonitors, Managers()
      reads set k | 0 <= k < |workflowMonitors| :: workflowMonitors[k]
      reads set k | 0 <= k < |workflowMonitors| :: workflowMonitors[k].base
    {
      workflowManagers.Some? &&
      |workflowMonitors| == |before| + |workflowManagers.value.order| &&
      workflowMonitors[..|before|] == before &&
      (forall k :: 0 <= k < |workflowManagers.value.order| ==>
         workflowManagers.value.order[k].monitor == Some(workflowMonitors[|before| + k])) &&
      (forall k :: |before| <= k < |workflowMonitors| ==>
         workflowMonitors[k].base.running && workflowMonitors[k].threadStarted)
    }

    /** Some kept monitor reports running. */
    predicate AnyMonitorRunning()
      reads this`workflowMonitors, set k | 0 <= k < |workflowMonitors| :: workflowMonitors[k].base
    {
      exists k :: 0 <= k < |workflowMonitors| && workflowMonitors[k].base.running
    }

    /** The repository is resolved; nothing is configured, running or done yet. */
    constructor (runid: string, config: ProductionConfig, repository: Option<string>, resolve: string -> string)
      requires DistinctNames(config.workflows)
      ensures this.runid == runid && this.config == config
      ensures this.repository == RepositoryOf(repository, config.production.repositoryDirectory, resolve)
      ensures !running && !done && configurator.None? && workflowManagers.None? && workflowMonitors == []
      ensures Valid()
    {
      this.runid := runid;
      this.config := config;
      var r := repository;
      if !(r.Some? && r.value != "") {
        r := config.production.repositoryDirectory;
      }
      if r.None? || r.value == "" {
        this.repository := ".";
      } else {
        this.repository := resolve(r.value);
      }
      running := false;
      done := false;
      configurator := None;
      workflowManagers := None;
      workflowMonitors := [];
    }

    /** `isRunning`: true when some kept monitor runs; when none does, the production's running flag is cleared. */
    method IsRunning() returns (r: bool)
      requires Valid()
      modifies this
      ensures Valid()
      ensures r <==> AnyMonitorRunning()
      ensures r ==> running == old(running)
      ensures !r ==> !running
      ensures done == old(done) && configurator == old(configurator)
      ensures workflowManagers == old(workflowManagers) && workflowMonitors == old(workflowMonitors)
    {
      var k := 0;
      while k < |workflowMonitors|
        invariant 0 <= k <= |workflowMonitors|
        invariant forall j :: 0 <= j < k ==> !workflowMonitors[j].base.running
      {
        if workflowMonitors[k].IsRunning() {
          return true;
        }
        k := k + 1;
      }
      running := false;
      return false;
    }

    /** `isDone`: a side-effect-free read of the done flag. */
    function IsDone(): (r: bool)
      reads this
      ensures r <==> done
    {
      done
    }

    /** `isRunnable`: neither running nor done. */
    method IsRunnable() returns (r: bool)
      requires Valid()
      modifies this
      ensures Valid()
      ensures r <==> !AnyMonitorRunning() && !done
      ensures !AnyMonitorRunning() ==> !running
      ensures AnyMonitorRunning() ==> running == old(running)
      ensures done == old(done) && configurator == old(configurator)
      ensures workflowManagers == old(workflowManagers) && workflowMonitors == old(workflowMonitors)
    {
      var isRunning := IsRunning();
      r := !isRunning && !IsDone();
    }

    /** `getWorkflowManager`: the manager under `name`, or None before configuration or for an unknown name. */
    function GetWorkflowManager(name: string): (r: Option<WorkflowManager>)
      reads this
      ensures r.None? <==> workflowManagers.None? || name !in workflowManagers.value.byName
      ensures r.Some? ==> r.value == workflowManagers.value.byName[name]
    {
      if workflowManagers.None? || name !in workflowManagers.value.byName then None
      else Some(workflowManagers.value.byName[name])
    }

    /** Every configured manager is found under its name, and a manager found under a name carries it. */
    lemma GetWorkflowManagerFinds(name: string)
      requires Valid() && workflowManagers.Some?
      ensures forall k :: 0 <= k < |workflowManagers.value.order| ==>
                GetWorkflowManager(workflowManagers.value.order[k].name) == Some(workflowManagers.value.order[k])
      ensures GetWorkflowManager(name).Some? ==>
                GetWorkflowManager(name).value.name == name && GetWorkflowManager(name).value in workflowManagers.value.order
      ensures GetWorkflowManager(name).None? <==> forall k :: 0 <= k < |workflowManagers.value.order| ==> workflowManagers.value.order[k].name != name
    {
      ByNameDistinct(workflowManagers.value.order);
      ByNameSound(workflowManagers.value.order);
    }

    /**
     * `configure`: ignored once a configurator exists. Otherwise a configurator is created
     * and kept even when its `configure` raises; on success the table holds its managers in
     * order, each also under its name.
     */
    method Configure() returns (err: Option<ConfigureError>)
      requires Valid()
      modifies this
      ensures Valid()
      ensures running == old(running) && done == old(done) && workflowMonitors == old(workflowMonitors)
      ensures old(configurator).Some? ==> err.None? && configurator == old(configurator) && workflowManagers == old(workflowManagers)
      ensures old(configurator).None? ==> configurator.Some? && fresh(configurator.value)
      ensures old(configurator).None? && config.production.configurationClass.Some? ==>
                err == Some(NoSpecializedConfigure) && workflowManagers.None?
      ensures old(configurator).None? && config.production.configurationClass.None? && FirstUnconfigured(config.workflows).Some? ==>
                err == Some(WorkflowNotConfigured(LauncherError)) && workflowManagers.None?
      ensures old(configurator).None? && config.production.configurationClass.None? && FirstUnconfigured(config.workflows).None? ==>
                err.None? && workflowManagers.Some? &&
                |workflowManagers.value.order| == |config.workflows| &&
                workflowManagers.value.byName == ByName(workflowManagers.value.order) &&
                forall k :: 0 <= k < |config.workflows| ==>
                  fresh(workflowManagers.value.order[k]) &&
                  ManagedAs(workflowManagers.value.order[k], config.workflows[k], runid, repository)
    {
      if configurator.Some? {
        return None;
      }
      var prc := new ProductionRunConfigurator(runid, config, repository);
      configurator := Some(prc);
      var result := prc.Configure();
      if result.Failure? {
        return Some(result.error);
      }
      var managers := result.value;
      var table := BuildTable(managers);
      ManagedNamesDistinct(managers, config.workflows, runid, repository);
      workflowManagers := Some(table);
      return None;
    }

    /**
     * `checkConfiguration` as written: before configuration it reads `self._name`, which the
     * class never sets (AttributeError); after it, it looks the table up by manager object
     * instead of by name (KeyError as soon as there is one workflow).
     */
    method CheckConfigurationAsWritten(care: int, issueExc: Option<MultiIssueConfigurationError>) returns (r: CheckOutcome)
      requires Valid()
      ensures workflowManagers.None? ==> r == NameAttributeError
      ensures workflowManagers.Some? && workflowManagers.value.order != [] ==> r == ManagerKeyError
      ensures workflowManagers.Some? && workflowManagers.value.order == [] ==> r == Passed
    {
      if workflowManagers.None? {
        var msg := NotConfiguredMessage(runid);
        return NameAttributeError;
      }
      var myProblems: MultiIssueConfigurationError;
      if issueExc.None? {
        myProblems := new MultiIssueConfigurationError(Some(CheckSummary), None);
      } else {
        myProblems := issueExc.value;
      }
      var _ := configurator.value.CheckConfiguration(care, Some(myProblems));
      if workflowManagers.value.order != [] {
        // the first lookup uses the manager itself as the key; the table's keys are names
        return ManagerKeyError;
      }
      return Passed;
    }

    /**
     * `checkConfiguration` as evidently intended: before configuration the problem is raised
     * as a ConfigurationError, or added to `issueExc` when one is given; after it, the
     * configurator and every manager (looked up by name) are checked, and none of them
     * records a problem, so nothing is raised.
     */
    method CheckConfiguration(care: int, issueExc: Option<MultiIssueConfigurationError>) returns (raised: Option<ConfigurationError>)
      requires Valid()
      modifies if issueExc.Some? then {issueExc.value} else {}
      ensures workflowManagers.None? && issueExc.None? ==> raised == Some(ConfigurationError(NotConfiguredMessage(runid)))
      ensures workflowManagers.None? && issueExc.Some? ==>
                raised.None? && issueExc.value.problems == old(issueExc.value.problems) + [NotConfiguredMessage(runid)]
      ensures workflowManagers.Some? ==> raised.None? && (issueExc.Some? ==> issueExc.value.problems == old(issueExc.value.problems))
    {
      if workflowManagers.None? {
        var msg := NotConfiguredMessage(runid);
        if issueExc.None? {
          return Some(ConfigurationError(msg));
        }
        issueExc.value.AddProblem(msg);
        return None;
      }
      var myProblems: MultiIssueConfigurationError;
      if issueExc.None? {
        myProblems := new MultiIssueConfigurationError(Some(CheckSummary), None);
      } else {
        myProblems := issueExc.value;
      }
      var _ := configurator.value.CheckConfiguration(care, Some(myProblems));
      var order := workflowManagers.value.order;
      ByNameSound(order);
      var k := 0;
      while k < |order|
        invariant 0 <= k <= |order|
        invariant issueExc.Some? ==> issueExc.value.problems == old(issueExc.value.problems)
      {
        var workflowMgr := workflowManagers.value.byName[order[k].name];
        var _ := workflowMgr.CheckConfiguration(care, Some(myProblems));
        k := k + 1;
      }
      return None;
    }

    /** The end of `runProduction`: the configuration check unless it is skipped, then the launch loop. */
    method CheckAndLaunch(skip: bool, checkCare: int, loggerManagers: seq<LoggerManager>) returns (r: RunOutcome)
      requires Valid() && workflowManagers.Some?
      modifies this, Managers()
      ensures Valid()
      ensures running == old(running) && done == old(done)
      ensures configurator == old(configurator) && workflowManagers == old(workflowManagers)
      ensures r.Started? || (r.Raised? && r.error.WorkflowFailed?)
      ensures r == Started <==> old(AllCanLaunch(workflowManagers.value.order)) &&
                                (workflowManagers.value.order == [] || AllStarted(loggerManagers))
      ensures r == Started ==>
                Launched(old(workflowMonitors)) &&
                forall k :: |old(workflowMonitors)| <= k < |workflowMonitors| ==> fresh(workflowMonitors[k])
    {
      if !skip {
        var _ := CheckConfiguration(checkCare, None);
      }
      r := LaunchAll(loggerManagers);
    }

    /** The launch loop of `runProduction` on the table; the monitors it gives are kept, in order, even when a later launch fails. */
    method LaunchAll(loggerManagers: seq<LoggerManager>) returns (r: RunOutcome)
      requires Valid() && workflowManagers.Some?
      modifies this, Managers()
      ensures Valid()
      ensures running == old(running) && done == old(done)
      ensures configurator == old(configurator) && workflowManagers == old(workflowManagers)
      ensures r.Started? || (r.Raised? && r.error.WorkflowFailed?)
      ensures r == Started <==> old(AllCanLaunch(workflowManagers.value.order)) &&
                                (workflowManagers.value.order == [] || AllStarted(loggerManagers))
      ensures r == Started ==>
                Launched(old(workflowMonitors)) &&
                forall k :: |old(workflowMonitors)| <= k < |workflowMonitors| ==> fresh(workflowMonitors[k])
    {
      var order := workflowManagers.value.order;
      var monitors, failed := LaunchManagers(order, loggerManagers);
      workflowMonitors := workflowMonitors + monitors;
      if failed.Some? {
        return Raised(failed.value);
      }
      return Started;
    }

    /**
     * The locked part of `runProduction`, after the production was found runnable: it is marked
     * running, configured if it was not, checked unless the check is skipped, and launched.
     */
    method StartProduction(skip: bool, checkCare: int, loggerManagers: seq<LoggerManager>) returns (r: RunOutcome)
      requires Valid()
      modifies this, Managers()
      ensures Valid()
      ensures running && done == old(done)
      ensures r != Refused
      ensures old(configurator).None? && config.production.configurationClass.Some? ==>
                r == Raised(ConfigureFailed(NoSpecializedConfigure))
      ensures old(configurator).None? && config.production.configurationClass.None? && FirstUnconfigured(config.workflows).Some? ==>
                r == Raised(ConfigureFailed(WorkflowNotConfigured(LauncherError)))
      ensures old(configurator).None? && config.production.configurationClass.None? && FirstUnconfigured(config.workflows).None? ==>
                (r == Started <==> config.workflows == [] || AllStarted(loggerManagers))
      ensures old(configurator).Some? && old(workflowManagers).None? ==> r == Raised(NoWorkflowManagers)
      ensures old(workflowManagers).Some? ==>
                (r == Started <==> old(AllCanLaunch(workflowManagers.value.order)) &&
                                   (old(workflowManagers).value.order == [] || AllStarted(loggerManagers)))
      ensures r == Started ==>
                Launched(old(workflowMonitors)) &&
                forall k :: |old(workflowMonitors)| <= k < |workflowMonitors| ==> fresh(workflowMonitors[k])
    {
      running := true;
      if configurator.None? {
        var err := Configure();
        if err.Some? {
          return Raised(ConfigureFailed(err.value));
        }
        if workflowManagers.Some? {
          ManagedCanLaunch(workflowManagers.value.order, config.workflows, runid, repository);
        }
      }
      if workflowManagers.None? {
        return Raised(NoWorkflowManagers);
      }
      r := CheckAndLaunch(skip, checkCare, loggerManagers);
    }

    /**
     * `runProduction`: refused unless runnable. Otherwise the production is marked running,
     * and started as `StartProduction` says, with the care level and the skip decision taken
     * from the production's `configCheckCare`. The loggers the launches need are a parameter.
     */
    method RunProduction(skipConfigCheck: bool, loggerManagers: seq<LoggerManager>) returns (r: RunOutcome)
      requires Valid()
      modifies this, Managers()
      ensures Valid()
      ensures old(AnyMonitorRunning()) || old(done) ==>
                r == Refused && done == old(done) && configurator == old(configurator) &&
                workflowManagers == old(workflowManagers) && workflowMonitors == old(workflowMonitors)
      ensures !old(AnyMonitorRunning()) && !old(done) ==> r != Refused && running && done == old(done)
      ensures !old(AnyMonitorRunning()) && !old(done) && old(configurator).None? && config.production.configurationClass.Some? ==>
                r == Raised(ConfigureFailed(NoSpecializedConfigure))
      ensures !old(AnyMonitorRunning()) && !old(done) && old(configurator).None? && config.production.configurationClass.None? &&
              FirstUnconfigured(config.workflows).Some? ==>
                r == Raised(ConfigureFailed(WorkflowNotConfigured(LauncherError)))
      ensures !old(AnyMonitorRunning()) && !old(done) && old(configurator).None? && config.production.configurationClass.None? &&
              FirstUnconfigured(config.workflows).None? ==>
                (r == Started <==> config.workflows == [] || AllStarted(loggerManagers))
      ensures !old(AnyMonitorRunning()) && !old(done) && old(configurator).Some? && old(workflowManagers).None? ==>
                r == Raised(NoWorkflowManagers)
      ensures !old(AnyMonitorRunning()) && !old(done) && old(workflowManagers).Some? ==>
                (r == Started <==> old(AllCanLaunch(workflowManagers.value.order)) &&
                                   (old(workflowManagers).value.order == [] || AllStarted(loggerManagers)))
      ensures r == Started ==>
                Launched(old(workflowMonitors)) &&
                forall k :: |old(workflowMonitors)| <= k < |workflowMonitors| ==> fresh(workflowMonitors[k])
    {
      var runnable := IsRunnable();
      if !runnable {
        return Refused;
      }
      var checkCare := 1;
      if config.production.configCheckCare != 0 {
        checkCare := config.production.configCheckCare;
      }
      var skip := skipConfigCheck;
      if checkCare < 0 {
        skip := true;
      }
      assert checkCare == CheckCare(config.production.configCheckCare) && skip == SkipsCheck(skipConfigCheck, config.production.configCheckCare);
      r := StartProduction(skip, checkCare, loggerManagers);
    }

    /**
     * The part of `stopProduction` after the production was found running: every manager is
     * asked to stop, in table order, and then up to `rounds` polls (the timeout) look for a
     * running manager; when none runs, the production is done and no longer running.
     */
    method StopRunning(urgency: int, rounds: nat, fx: Effects) returns (stopped: bool)
      requires Valid() && workflowManagers.Some? && AnyMonitorRunning()
      modifies this, fx, MonitorsOf(workflowManagers.value.order)
      ensures Valid()
      ensures configurator == old(configurator) && workflowManagers == old(workflowManagers) && workflowMonitors == old(workflowMonitors)
      ensures fx.actions == old(fx.actions) + old(StopEffects(workflowManagers.value.order))
      ensures stopped <==> rounds > 0 && workflowManagers.value.order != [] && !AnyRunning(workflowManagers.value.order)
      ensures !stopped ==> running == old(running) && done == old(done)
      ensures stopped ==> !running && done
    {
      var order := workflowManagers.value.order;
      StopManagers(order, urgency, fx);
      var isRunning := IsRunning();
      var stillRunning := WaitForManagers(order, isRunning, rounds);
      if !stillRunning {
        running := false;
        done := true;
      }
      return !stillRunning;
    }

    /**
     * `stopProduction`: nothing to do unless running (the running flag is then cleared).
     * Otherwise the production is stopped as `StopRunning` says and the result is whether
     * every workflow stopped within the timeout.
     */
    method StopProduction(urgency: int, rounds: nat, fx: Effects) returns (r: Option<bool>)
      requires Valid()
      modifies this, fx, MonitorsOf(if workflowManagers.Some? then workflowManagers.value.order else [])
      ensures Valid()
      ensures configurator == old(configurator) && workflowManagers == old(workflowManagers) && workflowMonitors == old(workflowMonitors)
      ensures !old(AnyMonitorRunning()) ==> r.None? && !running && done == old(done) && fx.actions == old(fx.actions)
      ensures old(AnyMonitorRunning()) ==>
                workflowManagers.Some? && fx.actions == old(fx.actions) + old(StopEffects(workflowManagers.value.order))
      ensures old(AnyMonitorRunning()) ==>
                var still := rounds == 0 || workflowManagers.value.order == [] || AnyRunning(workflowManagers.value.order);
                r == Some(!still) &&
                (still ==> running == old(running) && done == old(done)) &&
                (!still ==> !running && done)
    {
      ghost var effects := if workflowManagers.Some? then StopEffects(workflowManagers.value.order) else [];
      var isRunning := IsRunning();
      if !isRunning {
        return None;
      }
      assert StopEffects(workflowManagers.value.order) == effects;
      var stopped := StopRunning(urgency, rounds, fx);
      return Some(stopped);
    }
  }
}
