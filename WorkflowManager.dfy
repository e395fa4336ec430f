/**
 * The manager of one workflow: it configures the workflow once, launches it when it is
 * runnable (neither running nor done), keeps the monitor the launch returned and forwards
 * stop requests to that monitor.
 */
module WorkflowManager {
  import opened Wrappers
  import opened CondorJobs
  import opened LoggerManager
  import opened WorkflowMonitor
  import opened CondorWorkflowMonitor
  import opened WorkflowLauncher
  import opened WorkflowConfigurator
  import opened Exceptions

  /** What the workflow config amounts to for the manager: its databases and the launcher its configurator builds (None when it builds none). */
  datatype WorkflowSetup = WorkflowSetup(databases: Option<seq<string>>, launcher: Option<Launcher>)

  /**
   * How `runWorkflow` ends: refused (False), with the launched monitor, or with the exception the
   * launch raised: no launcher was configured, or a logger manager had no process.
   */
  datatype RunResult = NotRunnable | Launched(monitor: CondorWorkflowMonitor) | NoLauncher | LaunchFailed(error: LaunchError)

  /** The workflow's name: the given one, or "unnamed". */
  function NameOrDefault(name: Option<string>): (r: string)
    ensures name.None? ==> r == "unnamed"
    ensures name.Some? ==> r == name.value
  {
    if name.Some? then name.value else "unnamed"
  }

  const CheckSummary := "problems encountered while checking configuration"

  class WorkflowManager {
    const name: string
    const runid: string
    const repository: string
    const setup: WorkflowSetup
    var configured: bool
    var launcher: Option<Launcher>
    var setupSteps: seq<SetupStep>
    var monitor: Option<CondorWorkflowMonitor>

    constructor (name: Option<string>, runid: string, repository: string, setup: WorkflowSetup)
      ensures this.name == NameOrDefault(name) && this.runid == runid
      ensures this.repository == repository && this.setup == setup
      ensures !configured && launcher.None? && monitor.None? && setupSteps == []
    {
      this.name := NameOrDefault(name);
      this.runid := runid;
      this.repository := repository;
      this.setup := setup;
      configured := false;
      launcher := None;
      setupSteps := [];
      monitor := None;
    }

    /** The objects whose flags `isRunning` and `isDone` read. */
    function MonitorObjects(): set<object>
      reads this
    {
      if monitor.Some? then {monitor.value, monitor.value.base} else {}
    }

    /** `isRunning`: the monitor's flag, false without a monitor. */
    function IsRunning(): (r: bool)
      reads this, MonitorObjects()
      ensures r <==> monitor.Some? && monitor.value.base.running
    {
      monitor.Some? && monitor.value.IsRunning()
    }

    /** `isDone`: the monitor's flag, false without a monitor. */
    function IsDone(): (r: bool)
      reads this, MonitorObjects()
      ensures r <==> monitor.Some? && monitor.value.base.done
    {
      monitor.Some? && monitor.value.IsDone()
    }

    /** `isRunnable`: runnable without a monitor, or when its monitor is neither running nor done. */
    function IsRunnable(): (r: bool)
      reads this, MonitorObjects()
      ensures r <==> monitor.None? || (!monitor.value.base.running && !monitor.value.base.done)
    {
      !IsRunning() && !IsDone()
    }

    /**
     * `configure`: the first call records the configurator's steps and keeps and returns its
     * launcher; every later call returns None and changes nothing.
     */
    method Configure() returns (r: Option<Launcher>)
      modifies this
      ensures old(configured) ==> r.None? && launcher == old(launcher) && setupSteps == old(setupSteps)
      ensures !old(configured) ==> r == setup.launcher && launcher == setup.launcher &&
                                   setupSteps == old(setupSteps) + DatabaseSteps(setup.databases) + [SpecializedSetup]
      ensures configured && monitor == old(monitor)
    {
      if configured {
        return None;
      }
      configured := true;
      var steps, l := WorkflowConfigurator.Configure(setup.databases, setup.launcher);
      setupSteps := setupSteps + steps;
      launcher := l;
      return launcher;
    }

    /**
     * `runWorkflow`: refused, changing nothing, unless runnable; otherwise configured if it was
     * not yet, then launched with the kept launcher; a successful launch's monitor is kept and returned.
     */
    method RunWorkflow(statusListener: Option<StatusListener>, loggerManagers: seq<LoggerManager>) returns (r: RunResult)
      modifies this
      ensures !old(IsRunnable()) ==> r == NotRunnable && configured == old(configured) &&
                                     launcher == old(launcher) && monitor == old(monitor) && setupSteps == old(setupSteps)
      ensures old(IsRunnable()) ==>
                configured &&
                launcher == (if old(configured) then old(launcher) else setup.launcher) &&
                setupSteps == (if old(configured) then old(setupSteps)
                               else old(setupSteps) + DatabaseSteps(setup.databases) + [SpecializedSetup])
      ensures old(IsRunnable()) && launcher.None? ==> r == NoLauncher && monitor == old(monitor)
      ensures old(IsRunnable()) && launcher.Some? && !AllStarted(loggerManagers) ==>
                r == LaunchFailed(LoggerNotStarted) && monitor == old(monitor)
      ensures old(IsRunnable()) && launcher.Some? && AllStarted(loggerManagers) ==>
                r.Launched? && monitor == Some(r.monitor) && fresh(r.monitor) && fresh(r.monitor.base) &&
                r.monitor.Valid() && r.monitor.base.running && r.monitor.threadStarted &&
                r.monitor.condorDagId == DagIdText(FirstCluster(OutputLines(launcher.value.submitOutput))) &&
                r.monitor.base.statusListeners == (if statusListener.Some? then [statusListener.value] else [])
    {
      if !IsRunnable() {
        return NotRunnable;
      }
      if !configured {
        var l := Configure();
        launcher := l;
      }
      if launcher.None? {
        return NoLauncher;
      }
      var launched := Launch(launcher.value, statusListener, loggerManagers);
      if launched.Failure? {
        return LaunchFailed(launched.error);
      }
      monitor := Some(launched.value);
      return Launched(launched.value);
    }

    /** `stopWorkflow`: forwards the urgency to the monitor when there is one, otherwise does nothing. */
    method StopWorkflow(urgency: int, fx: Effects)
      modifies if monitor.Some? then {monitor.value} else {}, fx
      ensures monitor == old(monitor)
      ensures monitor.None? ==> fx.actions == old(fx.actions)
      ensures monitor.Some? ==>
                fx.actions == old(fx.actions) + [CondorRm(monitor.value.condorDagId)] +
                              (if old(monitor.value.sentLastLoggerEvent) then [] else [EndOfLog(monitor.value.runid)]) &&
                monitor.value.sentLastLoggerEvent &&
                monitor.value.loggerPIDs == old(monitor.value.loggerPIDs)
    {
      if monitor.Some? {
        monitor.value.StopWorkflow(urgency, fx);
      }
    }

    /**
     * `checkConfiguration`: no check adds a problem, so it never raises; a given `issueExc`
     * is left as it was.
     */
    method CheckConfiguration(care: int, issueExc: Option<MultiIssueConfigurationError>)
      returns (raised: Option<MultiIssueConfigurationError>)
      ensures raised.None?
    {
      var myProblems: MultiIssueConfigurationError;
      if issueExc.None? {
        myProblems := new MultiIssueConfigurationError(Some(CheckSummary), None);
      } else {
        myProblems := issueExc.value;
      }
      if issueExc.None? && myProblems.HasProblems() {
        return Some(myProblems);
      }
      return None;
    }
  }
}
