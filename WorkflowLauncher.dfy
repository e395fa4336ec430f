/**
 * Launching a configured HTCondor workflow: submit the DAG, build a monitor for it, attach
 * the status listener (if any) and start the monitor's thread. The launcher is abstract:
 * it is the data the specialised configurator prepared, including what `condor_submit_dag`
 * prints for this workflow.
 */
module WorkflowLauncher {
  import opened Wrappers
  import opened CondorJobs
  import opened LoggerManager
  import opened WorkflowMonitor
  import opened CondorWorkflowMonitor

  /** What a launcher holds: the production's event broker and shutdown topic, the run id, the monitor's check interval, and the submission output. */
  datatype Launcher = Launcher(eventBrokerHost: string, shutdownTopic: string, runid: string,
                               statusCheckInterval: int, submitOutput: seq<string>)

  /** `condorSubmitDag` gives the captured id, or `-1` when no line matched. */
  function DagIdText(id: Option<string>): (r: string)
    ensures id.Some? ==> r == id.value
    ensures id.None? ==> r == "-1"
  {
    if id.Some? then id.value else "-1"
  }

  /** Building the monitor fails when a logger manager has no process: `getPID` raises AttributeError. */
  datatype LaunchError = LoggerNotStarted

  predicate AllStarted(loggerManagers: seq<LoggerManager>)
    reads set k | 0 <= k < |loggerManagers| :: loggerManagers[k]
  {
    forall k :: 0 <= k < |loggerManagers| ==> loggerManagers[k].process.Some?
  }

  /**
   * What `launch` leaves behind: a monitor for DAG `condorDagId` of the launcher's run, with the
   * launcher's broker, topic and check interval, recording `pids`, with the listener (if any) as
   * its only listener, running with its thread started.
   */
  ghost predicate Launched(monitor: CondorWorkflowMonitor, launcher: Launcher, condorDagId: string,
                           statusListener: Option<StatusListener>, pids: seq<int>)
    reads monitor, monitor.base
  {
    monitor.Valid() &&
    monitor.condorDagId == condorDagId && monitor.runid == launcher.runid &&
    monitor.eventBrokerHost == launcher.eventBrokerHost && monitor.shutdownTopic == launcher.shutdownTopic &&
    monitor.statusCheckInterval == launcher.statusCheckInterval &&
    monitor.loggerPIDs == pids &&
    monitor.base.statusListeners == (if statusListener.Some? then [statusListener.value] else []) &&
    monitor.base.running && !monitor.base.done && monitor.threadStarted && !monitor.sentLastLoggerEvent
  }

  /** The second half of `launch`: build the monitor, attach the listener, start the thread. */
  method StartMonitor(launcher: Launcher, condorDagId: string, statusListener: Option<StatusListener>,
                      loggerManagers: seq<LoggerManager>)
    returns (monitor: CondorWorkflowMonitor)
    requires AllStarted(loggerManagers)
    ensures fresh(monitor) && fresh(monitor.base)
    ensures Launched(monitor, launcher, condorDagId, statusListener, old(LoggerPIDs(loggerManagers)))
  {
    monitor := new CondorWorkflowMonitor(launcher.eventBrokerHost, launcher.shutdownTopic, launcher.runid,
                                         condorDagId, loggerManagers, launcher.statusCheckInterval);
    if statusListener.Some? {
      monitor.AddStatusListener(statusListener.value);
    }
    var started := monitor.StartMonitorThread();
  }

  /**
   * `launch`: the DAG is submitted, then the monitor is built and started; without a process
   * for every logger manager building the monitor fails.
   */
  method Launch(launcher: Launcher, statusListener: Option<StatusListener>, loggerManagers: seq<LoggerManager>)
    returns (r: Result<CondorWorkflowMonitor, LaunchError>)
    ensures r.Failure? <==> !old(AllStarted(loggerManagers))
    ensures r.Success? ==> fresh(r.value) && fresh(r.value.base) && old(AllStarted(loggerManagers))
    ensures r.Success? ==>
              Launched(r.value, launcher, DagIdText(FirstCluster(OutputLines(launcher.submitOutput))), statusListener,
                       old(LoggerPIDs(loggerManagers)))
  {
    // the id `CondorSubmitDag` reads from the submission output
    var dagId := FirstCluster(OutputLines(launcher.submitOutput));
    if !AllStarted(loggerManagers) {
      return Failure(LoggerNotStarted);
    }
    var monitor := StartMonitor(launcher, DagIdText(dagId), statusListener, loggerManagers);
    return Success(monitor);
  }
}
