# ctrl_orca run lifecycle, modelled in Dafny

`ctrl_orca` is the LSST orchestration layer. A production run is described by a production
config. A `ProductionRunManager` configures the run once through a `ProductionRunConfigurator`,
which sets up the databases, records one `LoggerManager` per database that asks for a logging
daemon, and creates one `WorkflowManager` per workflow. It then launches every workflow in
order. Each launch submits an HTCondor DAG and returns a `CondorWorkflowMonitor`, whose thread
listens for orca and logger events and watches the HTCondor queue. The production is running
while some monitor runs. A DELETE request on the control endpoint (`ServiceHandler`) stops it:
every workflow is asked to stop in order, then the workflows are polled until none runs.

This project models that lifecycle:

- the scanners that read HTCondor and Pegasus output (`CondorJobs`, `PegasusJobs`, over the
  Python `re` and `str` helpers in `Regex` and `PyText`);
- the monitors' flags, logger-pid list and send-once end-of-log latch, and one pass of the
  monitor thread (`WorkflowMonitor`, `CondorWorkflowMonitor`);
- the managers' configure-once, launch and stop logic (`WorkflowManager`,
  `ProductionRunManager`, with the launch step in `WorkflowLauncher`);
- the configuration bookkeeping (`ProductionRunConfigurator`, `WorkflowConfigurator`,
  `Exceptions`);
- the control endpoint's decision (`ServiceHandler`);
- path resolution (`Directories`), template rewriting (`TemplateWriter`) and the logger daemon
  manager (`LoggerManager`).

Objects that Python updates in place are Dafny classes with `modifies` frames. Loops are
methods with invariants, proved against specification functions, and lemmas state what those
functions promise. Process output, events, time and other external inputs are parameters.
Actions sent to the outside world (`condor_rm`, the end-of-log event) are recorded in an
`Effects` log.

## Model

| member | source | states |
|---|---|---|
| CondorJobs.ClusterAt | python/lsst/ctrl/orca/CondorJobs.py:62 | a match of the submission pattern at a position is a non-empty digit run that directly follows the marker text and is followed by some character other than a newline (the pattern's final `.`) |
| CondorJobs.ClusterAtFollowedBy | python/lsst/ctrl/orca/CondorJobs.py:62 | the marker, a digit run and then a character that is neither a digit nor a newline yield exactly that digit run as the cluster id |
| CondorJobs.SubmitAckYieldsId | python/lsst/ctrl/orca/CondorJobs.py:62-75 | the acknowledgement line `1 job(s) submitted to cluster 1317.` gives the id `1317` |
| CondorJobs.SubmitAckWithoutTrailer | python/lsst/ctrl/orca/CondorJobs.py:62 | without any character after the digits the final `.` of the pattern takes the last digit, so `...cluster 1317` gives `131` |
| CondorJobs.SubmitJob | python/lsst/ctrl/orca/CondorJobs.py:46-75 | the id returned is a non-empty digit run that follows the marker on the second line read; no id (None) exactly when the pattern matches nowhere on that line |
| CondorJobs.SubmitJobReadsSecondLineOnly | python/lsst/ctrl/orca/CondorJobs.py:68-71 | the result of `submitJob` depends on the second line of the output only (the first is read and dropped) |
| CondorJobs.OutputLines | python/lsst/ctrl/orca/CondorJobs.py:215-222 | the lines `condorSubmitDag` collects are a prefix of the output that stops at the first empty read (end of file) |
| CondorJobs.OutputLinesAt | python/lsst/ctrl/orca/CondorJobs.py:215-222 | each collected line is a non-empty read with surrounding whitespace stripped |
| CondorJobs.ReadOutput | python/lsst/ctrl/orca/CondorJobs.py:215-222 | the read loop collects exactly the stripped lines up to end of file |
| CondorJobs.CondorSubmitDag | python/lsst/ctrl/orca/CondorJobs.py:192-232 | the returned id is the cluster id of the first collected line on which the pattern matches, or None (the source's -1) when no line matches |
| CondorJobs.ClassifyRow | python/lsst/ctrl/orca/CondorJobs.py:115-118 | a `condor_q` line with at least six whitespace-separated fields gives its first field as job id and its sixth as status; a line with one to five fields is the one whose `values[5]` raises |
| CondorJobs.ScanFrom | python/lsst/ctrl/orca/CondorJobs.py:110-142 | scanning one listing stops only on a row of the job with status R, H, X or C, and the status returned is that row's; a listing read to its end counts the job's rows |
| CondorJobs.NoSightingMeansAbsent | python/lsst/ctrl/orca/CondorJobs.py:110-121 | a listing read to its end without a sighting holds no row of the job before its end of file |
| CondorJobs.ScanStopsAtTerminalRow | python/lsst/ctrl/orca/CondorJobs.py:115-141 | when rows before it pass the scan, the first row of the job with a terminal status ends the scan with that status |
| CondorJobs.WaitForJobToRun | python/lsst/ctrl/orca/CondorJobs.py:77-151 | the polling loop (a bounded sequence of listings in place of the endless loop and its sleeps) returns exactly the outcome function's result: a terminal status, None for a vanished job, still waiting, or the IndexError of a short row |
| CondorJobs.ReachedIsTerminalRow | python/lsst/ctrl/orca/CondorJobs.py:122-141 | a returned status is R, H, X or C and some polled row of the job carries it |
| CondorJobs.VanishedFrom | python/lsst/ctrl/orca/CondorJobs.py:143-148 | a vanished outcome comes from a listing read to its end with no row of the job, after rows of it were counted |
| CondorJobs.SightingFrom | python/lsst/ctrl/orca/CondorJobs.py:119-121 | a counted sighting is a row of the job before the listing's end of file |
| CondorJobs.VanishedOnlyAfterSeen | python/lsst/ctrl/orca/CondorJobs.py:143-148 | `waitForJobToRun` reports an exited job only when an earlier listing showed a row of the job and a later listing, read to its end, showed none |
| CondorJobs.Without | python/lsst/ctrl/orca/CondorJobs.py:179 | the list comprehension keeps exactly the entries other than the dropped one, and never grows |
| CondorJobs.AfterRow | python/lsst/ctrl/orca/CondorJobs.py:176-181 | a row changes the waited-for list exactly when its status is R and its id is one of the listed jobs, and then every copy of that job is dropped |
| CondorJobs.AfterRowFound | python/lsst/ctrl/orca/CondorJobs.py:176-181 | the first listed job that a row shows running determines the list that remains |
| CondorJobs.ScanAllRow | python/lsst/ctrl/orca/CondorJobs.py:171-181 | one row of a listing either ends the wait (nothing left), drops the job it shows running, or leaves the list as it was |
| CondorJobs.WaitForAllJobsToRun | python/lsst/ctrl/orca/CondorJobs.py:153-190 | the polling loop over a bounded sequence of listings returns exactly the outcome function's result: all running, still waiting for a remaining list, or the IndexError of a short row |
| CondorJobs.DropAccounted | python/lsst/ctrl/orca/CondorJobs.py:176-181 | dropping a job on a running row keeps the invariant that every dropped job was seen running and every remaining one is from the original list |
| CondorJobs.ScanAllAccounted | python/lsst/ctrl/orca/CondorJobs.py:166-181 | scanning one listing keeps that invariant, and finishing the wait inside it means every original job was seen running |
| CondorJobs.WaitAllAccounted | python/lsst/ctrl/orca/CondorJobs.py:164-190 | polling keeps that invariant over all listings |
| CondorJobs.AllLeftShrinks | python/lsst/ctrl/orca/CondorJobs.py:179 | the jobs left after a listing are jobs that were waited for before it |
| CondorJobs.AllJobsRunningOnlyWhenSeen | python/lsst/ctrl/orca/CondorJobs.py:153-190 | `waitForAllJobsToRun` returns only for a non-empty list each of whose jobs some polled row showed running; while it waits, it waits for jobs of the list, and every job it dropped was seen running |
| CondorJobs.IsJobAlive | python/lsst/ctrl/orca/CondorJobs.py:254-277 | the read loop returns exactly the outcome function's result: the ValueError of a bad id or a non-integer line, True on a listed id, False at end of file or a blank line |
| CondorJobs.AliveFromTrue | python/lsst/ctrl/orca/CondorJobs.py:265-277 | from a position, True exactly when a later line equals the id and every line before it is a non-blank integer other than the id |
| CondorJobs.JobAliveIffListed | python/lsst/ctrl/orca/CondorJobs.py:254-277 | `isJobAlive` is True exactly when the id parses as an integer and some line of the listing equals it, every earlier line being a non-blank integer |
| PegasusJobs.TailAfter | python/lsst/ctrl/orca/PegasusJobs.py:208-209 | an attempt of `marker((\W\|\w)+)` at a position succeeds exactly when the marker occurs there with at least one character after it, and then captures all the rest of the line together with the line's last character (the pair `findall` returns for two groups) |
| PegasusJobs.Kind | python/lsst/ctrl/orca/PegasusJobs.py:229-240 | a line counts as a cluster line when the cluster pattern matches it, as a status line only when that one does not and the status pattern does, and as a remove line only when neither of the two matches and the remove pattern does |
| PegasusJobs.LastSome | python/lsst/ctrl/orca/PegasusJobs.py:226-240 | the value a field ends with is what the last line of its kind gave, and no value exactly when no line is of that kind |
| PegasusJobs.DaxOutcomeStep | python/lsst/ctrl/orca/PegasusJobs.py:229-240 | one more output line overwrites the field of its kind and leaves the other two alone |
| PegasusJobs.PegasusSubmitDax | python/lsst/ctrl/orca/PegasusJobs.py:160-244 | the triple returned is, field by field, what the last stripped output line of that field's kind gave (read up to end of file) |
| PegasusJobs.NoMatchGivesDefaults | python/lsst/ctrl/orca/PegasusJobs.py:226-228 | the result is `(-1, None, None)` exactly when no output line matches any of the three patterns |
| PegasusJobs.TailIsRestAfterLastMarker | python/lsst/ctrl/orca/PegasusJobs.py:208-209 | on a line without a newline, the greedy `.*` makes the capture start after the last occurrence of the marker that has something after it; no capture exactly when no occurrence has |
| PegasusJobs.StatusIsRestAfterLastMarker | python/lsst/ctrl/orca/PegasusJobs.py:208 | the status information is the non-empty rest of the line after the last `pegasus-status -l ` |
| PegasusJobs.RemoveIsRestAfterLastMarker | python/lsst/ctrl/orca/PegasusJobs.py:209 | the remove information is the non-empty rest of the line after the last `pegasus-remove ` |
| Regex.LeftmostFrom | python/lsst/ctrl/orca/CondorJobs.py:71 | the first hit of an unanchored pattern is at the leftmost position where an attempt succeeds; none exactly when every attempt fails |
| Regex.LastHit | python/lsst/ctrl/orca/PegasusJobs.py:207-209 | the capture of the greatest position in a range where an attempt succeeds; none exactly when all fail |
| Regex.GreedyIsLastHit | python/lsst/ctrl/orca/PegasusJobs.py:207-209 | on a line without a newline, a `.*P` pattern captures at the last position where `P` matches |
| Regex.FirstMatchFrom | python/lsst/ctrl/orca/CondorJobs.py:224-229 | the value of the first line on which a search succeeds, every earlier line failing; none exactly when all fail |
| PyText.SpanWhile | python/lsst/ctrl/orca/CondorJobs.py:62 | the end of the longest run of characters with a property that starts at a position (a greedy `\d+`, a `\S+`) |
| PyText.StripWith | python/lsst/ctrl/orca/CondorJobs.py:219 | stripping removes a leading and a trailing run of whitespace and nothing else: the result is a slice, starts and ends with non-whitespace, and is empty exactly for an all-whitespace string |
| PyText.TokensAreWords | python/lsst/ctrl/orca/CondorJobs.py:115 | every field `\S+` finds is a non-empty run of non-whitespace |
| PyText.TokensEmptyIffBlank | python/lsst/ctrl/orca/CondorJobs.py:115-117 | a line has no fields exactly when it is all whitespace (the rows the polling loops skip) |
| PyText.ParseInt | python/lsst/ctrl/orca/CondorJobs.py:262-270 | on ASCII text without `_`, `int` accepts exactly an optional sign followed by at least one decimal digit; anything else raises |
| PyText.ReplaceAbsent | python/lsst/ctrl/orca/TemplateWriter.py:64-70 | `replace` leaves a string without the key unchanged |
| PyText.Join | python/lsst/ctrl/orca/Directories.py:162-175 | an absolute second path replaces the first; otherwise the result is the first path, a separator when needed, and the second |
| PyText.NatDigits | python/lsst/ctrl/orca/LoggerManager.py:89-92 | `str` of a natural number is a non-empty string of decimal digits |
| PyText.NatDigitsValue | python/lsst/ctrl/orca/LoggerManager.py:89-92 | the digits of `str(n)` have the value `n` |
| PyText.ParseDecimalString | python/lsst/ctrl/orca/LoggerManager.py:89-92 | `int(str(n)) == n` for every integer |
| PyText.TokensOfJoinWords | python/lsst/ctrl/orca/LoggerManager.py:89-95 | splitting words joined by single spaces gives the words back (the logger's command line split into its argument list) |
| LoggerManager.LoggerArgs | python/lsst/ctrl/orca/LoggerManager.py:88-93 | the daemon gets `--broker` and `--runid` always, and `--host`, `--port` and `--database` exactly when a database host is given; absent optional values print as `None` |
| LoggerManager.LoggerCommandWords | python/lsst/ctrl/orca/LoggerManager.py:85-95 | when no value holds whitespace, the shell splits the command into the `Logger.py` script under `$CTRL_ORCA_DIR` followed by exactly those options |
| LoggerManager.ShowIntIsWord | python/lsst/ctrl/orca/LoggerManager.py:91-92 | a printed port is a single word |
| LoggerManager.LoggerCommand | python/lsst/ctrl/orca/LoggerManager.py:90-95 | the command runs `Logger.py` from the `bin` directory under `$CTRL_ORCA_DIR` (`None` when unset), with `--broker` and the broker host first |
| LoggerManager.CommandStartsWithBroker | python/lsst/ctrl/orca/LoggerManager.py:92-95 | a command whose options start with `--broker` and a value begins with the script, that option and that value, separated by single spaces |
| LoggerManager.LoggerManager.constructor | python/lsst/ctrl/orca/LoggerManager.py:50-70 | a new manager keeps the broker, run id and database coordinates and has no process |
| LoggerManager.LoggerManager.GetPID | python/lsst/ctrl/orca/LoggerManager.py:73-80 | the process id of the started daemon; none (AttributeError in Python) exactly when no daemon was started |
| LoggerManager.LoggerManager.Start | python/lsst/ctrl/orca/LoggerManager.py:82-98 | a manager that has a process keeps it; otherwise it gets one running the command built from its own fields |
| LoggerManager.LoggerManager.Stop | python/lsst/ctrl/orca/LoggerManager.py:100-115 | without a process nothing happens; a successful kill clears the process and a failed one leaves it |
| LoggerManager.LoggerPIDs | python/lsst/ctrl/orca/CondorWorkflowMonitor.py:67-70 | the process ids of started managers, one per manager and in the managers' order |
| TemplateWriter.Key | python/lsst/ctrl/orca/TemplateWriter.py:66 | the placeholder of a name is `$` followed by the name |
| TemplateWriter.TemplateLines | python/lsst/ctrl/orca/TemplateWriter.py:59-62 | the template's lines are the reads before the first empty one (end of file) |
| TemplateWriter.TemplateLinesAt | python/lsst/ctrl/orca/TemplateWriter.py:59-62 | each template line is the corresponding read, unchanged and not the end of the file |
| TemplateWriter.NoDollarNoKey | python/lsst/ctrl/orca/TemplateWriter.py:66-68 | a line without `$` contains no placeholder |
| TemplateWriter.ApplyPairsNoDollar | python/lsst/ctrl/orca/TemplateWriter.py:64-74 | substitution leaves a line without `$` unchanged |
| TemplateWriter.PrefixTokenReplaced | python/lsst/ctrl/orca/TemplateWriter.py:68 | `replace` is plain text replacement: `$name` at the start of a longer token such as `$nameX` is replaced too, and the rest of the token stays |
| TemplateWriter.ReplacePairs | python/lsst/ctrl/orca/TemplateWriter.py:65-74 | the loop over one dictionary replaces, pair by pair in order, every placeholder by its value |
| TemplateWriter.TemplateWriter.constructor | python/lsst/ctrl/orca/TemplateWriter.py:38-42 | the writer's own values are the local host name under `ORCA_LOCAL_HOSTNAME` |
| TemplateWriter.TemplateWriter.RewrittenLineByLine | python/lsst/ctrl/orca/TemplateWriter.py:59-75 | exactly one line is written per template line, in order, each the substituted template line |
| TemplateWriter.TemplateWriter.NoDollarUnchanged | python/lsst/ctrl/orca/TemplateWriter.py:59-75 | a template line without `$` is written unchanged |
| TemplateWriter.TemplateWriter.HostnameReplacedFirst | python/lsst/ctrl/orca/TemplateWriter.py:64-74 | the host name is substituted before any caller pair, so a caller pair named `ORCA` cannot capture `$ORCA_LOCAL_HOSTNAME` |
| TemplateWriter.TemplateWriter.Rewrite | python/lsst/ctrl/orca/TemplateWriter.py:44-75 | the lines written are exactly the rewritten template: the host name first, then the caller's pairs, line by line up to end of file |
| CondorWorkflowMonitor.Effects.constructor | python/lsst/ctrl/orca/CondorWorkflowMonitor.py:237-263 | the record of outside effects (`condor_rm`, the end-of-log event) starts empty |
| CondorWorkflowMonitor.Effects.Record | python/lsst/ctrl/orca/CondorWorkflowMonitor.py:250-261 | an effect is appended after those already recorded |
| CondorWorkflowMonitor.RemoveFirst | python/lsst/ctrl/orca/CondorWorkflowMonitor.py:222-223 | `list.remove` shortens the list by one when the pid is present and leaves it alone otherwise |
| CondorWorkflowMonitor.RemoveFirstSplit | python/lsst/ctrl/orca/CondorWorkflowMonitor.py:223 | what goes is the first occurrence of the pid; the pids before and after it keep their order |
| CondorWorkflowMonitor.RemoveFirstMultiset | python/lsst/ctrl/orca/CondorWorkflowMonitor.py:223 | removing a pid takes exactly one copy of it out of the list |
| CondorWorkflowMonitor.AfterEvent | python/lsst/ctrl/orca/CondorWorkflowMonitor.py:201-235 | a STATUS event with a recorded logger pid takes one copy of that pid off the list, any other event leaves the list alone; the monitor keeps running exactly when it was running, the event is not a COMMAND, and it is not a STATUS event that leaves the list empty; the end-of-log flag is untouched |
| CondorWorkflowMonitor.Reports | python/lsst/ctrl/orca/CondorWorkflowMonitor.py:219-223 | one STATUS event per logger pid, in order |
| CondorWorkflowMonitor.AllReportsStop | python/lsst/ctrl/orca/CondorWorkflowMonitor.py:219-228 | when every recorded logger has reported, the pid list is empty and the monitor has stopped running |
| CondorWorkflowMonitor.Step | python/lsst/ctrl/orca/CondorWorkflowMonitor.py:158-183 | one pass of the thread: the orca event is handled, or else the logger event, and only one of them; the thread returns only when that stopped the monitor; the next sleep is the check interval only when both receivers delivered; the end-of-log flag gets set exactly when the pass goes on and the DAG id is absent from the queue; the pass dies exactly when it goes on and `isJobAlive` raises |
| CondorWorkflowMonitor.RunFromStepped | python/lsst/ctrl/orca/CondorWorkflowMonitor.py:153-183 | the loop from a given pass on is that pass followed by the rest of the loop |
| CondorWorkflowMonitor.RunSleeps | python/lsst/ctrl/orca/CondorWorkflowMonitor.py:150-179 | the thread sleeps the check interval before its first pass; before each later pass it sleeps the check interval when the previous pass had both events and not at all otherwise; one pass per input until it stops |
| CondorWorkflowMonitor.RunKeeps | python/lsst/ctrl/orca/CondorWorkflowMonitor.py:153-183 | the thread returns only when the monitor has stopped running, the logger pid list only loses entries, and the end-of-log flag once set stays set |
| CondorWorkflowMonitor.QuietRunNeverExits | python/lsst/ctrl/orca/CondorWorkflowMonitor.py:176-183 | without events the thread never returns and `running` does not change, even after the DAG has left the queue (that only triggers the end-of-log event) |
| CondorWorkflowMonitor.CondorWorkflowMonitor.constructor | python/lsst/ctrl/orca/CondorWorkflowMonitor.py:56-104 | the monitor records the pid of each logger manager in order, keeps its broker, topic, run id, DAG id and check interval, and starts neither running nor done, with no listeners, no thread and no end-of-log event sent |
| CondorWorkflowMonitor.CondorWorkflowMonitor.IsRunning | python/lsst/ctrl/orca/WorkflowMonitor.py:67-75 | the monitor's `running` flag |
| CondorWorkflowMonitor.CondorWorkflowMonitor.IsDone | python/lsst/ctrl/orca/WorkflowMonitor.py:77-86 | the monitor's `done` flag |
| CondorWorkflowMonitor.CondorWorkflowMonitor.AddStatusListener | python/lsst/ctrl/orca/WorkflowMonitor.py:41-50 | the listener is appended and nothing else changes |
| CondorWorkflowMonitor.CondorWorkflowMonitor.StartMonitorThread | python/lsst/ctrl/orca/CondorWorkflowMonitor.py:185-199 | the first call starts the thread and sets `running`; a second call fails (the RuntimeError of starting a thread twice) and changes nothing |
| CondorWorkflowMonitor.CondorWorkflowMonitor.HandleEvent | python/lsst/ctrl/orca/CondorWorkflowMonitor.py:201-235 | the monitor's new state is the effect of the event on its state; the pid list never gains an entry and `done` is never set |
| CondorWorkflowMonitor.CondorWorkflowMonitor.SendLastLoggerEvent | python/lsst/ctrl/orca/CondorWorkflowMonitor.py:237-252 | the end-of-log event for the run is published the first time only, and the flag is set afterwards |
| CondorWorkflowMonitor.CondorWorkflowMonitor.StopWorkflow | python/lsst/ctrl/orca/CondorWorkflowMonitor.py:254-263 | `condor_rm` of the DAG, then the end-of-log event unless already sent; `running` and `done` are not touched |
| CondorWorkflowMonitor.CondorWorkflowMonitor.RunIteration | python/lsst/ctrl/orca/CondorWorkflowMonitor.py:158-183 | one pass changes the monitor exactly as the step function says, and publishes the end-of-log event only when it sets the flag |
| CondorWorkflowMonitor.CondorWorkflowMonitor.Run | python/lsst/ctrl/orca/CondorWorkflowMonitor.py:145-183 | the thread's loop over a finite sequence of inputs ends in the final state, with the sleeps and the way of ending that the loop function gives; the end-of-log event is published at most once |
| WorkflowLauncher.DagIdText | python/lsst/ctrl/orca/CondorJobs.py:224-232 | the DAG id the monitor gets is the captured cluster id, or `-1` when no submission line matched |
| WorkflowLauncher.StartMonitor | python/lsst/ctrl/orca/CondorWorkflowLauncher.py:89-97 | the new monitor watches the given DAG for the launcher's run, with the launcher's broker, topic and check interval; it records the pid of every logger manager, has the listener (if one is given) as its only listener, and is running with its thread started |
| WorkflowLauncher.Launch | python/lsst/ctrl/orca/CondorWorkflowLauncher.py:65-97 | launching fails exactly when some logger manager has no process (the AttributeError of `getPID`); otherwise the new monitor, started as above, watches the DAG id that `condorSubmitDag` reads from the submission output |
| WorkflowManager.NameOrDefault | python/lsst/ctrl/orca/WorkflowManager.py:59-62 | the workflow is named `unnamed` unless a name is given |
| WorkflowManager.WorkflowManager.constructor | python/lsst/ctrl/orca/WorkflowManager.py:53-83 | a new manager keeps its name (or `unnamed`), run id, repository and configuration, and is not configured and has no launcher and no monitor |
| WorkflowManager.WorkflowManager.IsRunning | python/lsst/ctrl/orca/WorkflowManager.py:202-207 | running exactly when there is a monitor and it is running |
| WorkflowManager.WorkflowManager.IsDone | python/lsst/ctrl/orca/WorkflowManager.py:209-224 | done exactly when there is a monitor and it is done |
| WorkflowManager.WorkflowManager.IsRunnable | python/lsst/ctrl/orca/WorkflowManager.py:226-238 | runnable exactly when there is no monitor, or the monitor is neither running nor done |
| WorkflowManager.WorkflowManager.Configure | python/lsst/ctrl/orca/WorkflowManager.py:140-170 | the first call runs the workflow configurator (its database steps, then its specialised step) and keeps and returns the launcher it builds; every later call returns None and changes nothing |
| WorkflowManager.WorkflowManager.RunWorkflow | python/lsst/ctrl/orca/WorkflowManager.py:93-116 | a manager that is not runnable refuses (False) and changes nothing; otherwise it is configured if it was not yet, and then launched: without a launcher, or when a logger manager has no process, the launch raises and the monitor stays as it was; a successful launch's monitor is kept and returned, running, with its thread started, the listener attached, and watching the DAG id read from the submission output |
| WorkflowManager.WorkflowManager.StopWorkflow | python/lsst/ctrl/orca/WorkflowManager.py:118-131 | with a monitor, the stop goes to it (`condor_rm` of its DAG, then the end-of-log event unless already sent); without one nothing happens |
| WorkflowManager.WorkflowManager.CheckConfiguration | python/lsst/ctrl/orca/WorkflowManager.py:240-267 | no check adds a problem, so the check never raises |
| WorkflowConfigurator.Iterations | python/lsst/ctrl/orca/WorkflowConfigurator.py:267-271 | a pipeline yields as many groups as its run count (1 when it has none), and none for a negative count (`range` of a negative number is empty) |
| WorkflowConfigurator.PipelineGroups | python/lsst/ctrl/orca/WorkflowConfigurator.py:271-273 | the groups of one pipeline carry its name and config, the numbers 1 to its run count, and consecutive offsets |
| WorkflowConfigurator.FindWorkflow | python/lsst/ctrl/orca/WorkflowConfigurator.py:259-261 | the position of the first workflow with the short name; none exactly when no workflow has it |
| WorkflowConfigurator.NumberPipelines | python/lsst/ctrl/orca/WorkflowConfigurator.py:263-275 | the numbering loop yields the groups of the pipelines in order, its counter ending one past the last offset given out |
| WorkflowConfigurator.CountPipelines | python/lsst/ctrl/orca/WorkflowConfigurator.py:278-283 | the counting loop adds up the run counts of a workflow's pipelines, 1 for each pipeline without one |
| WorkflowConfigurator.ExpandConfigs | python/lsst/ctrl/orca/WorkflowConfigurator.py:241-285 | the result is the groups of the first workflow with the short name, its offsets starting one past the run counts of all workflows before it; None when no workflow has the name |
| WorkflowConfigurator.GroupsConsecutive | python/lsst/ctrl/orca/WorkflowConfigurator.py:242-273 | the offsets of a workflow's groups are consecutive, so each pipeline run gets a distinct offset |
| WorkflowConfigurator.GroupsNumbered | python/lsst/ctrl/orca/WorkflowConfigurator.py:265-273 | every group belongs to one of the workflow's pipelines, carries that pipeline's name, and has a number from 1 to its run count |
| WorkflowConfigurator.FindWorkflowPrefix | python/lsst/ctrl/orca/WorkflowConfigurator.py:259-261 | workflows after the first match do not change which workflow is found |
| WorkflowConfigurator.ExpandedIgnoresLater | python/lsst/ctrl/orca/WorkflowConfigurator.py:259-275 | workflows after the named one are never looked at: appending workflows does not change the result |
| WorkflowConfigurator.ConfigGroup.GetConfig | python/lsst/ctrl/orca/WorkflowConfigurator.py:90-97 | the pipeline config the group was built with: together with the other three parts it rebuilds the group |
| WorkflowConfigurator.ConfigGroup.GetConfigName | python/lsst/ctrl/orca/WorkflowConfigurator.py:99-107 | the name the group was built with: together with the other three parts it rebuilds the group |
| WorkflowConfigurator.ConfigGroup.GetConfigNumber | python/lsst/ctrl/orca/WorkflowConfigurator.py:109-117 | the run number the group was built with: together with the other three parts it rebuilds the group |
| WorkflowConfigurator.ConfigGroup.GetGlobalOffset | python/lsst/ctrl/orca/WorkflowConfigurator.py:120-121 | the global offset the group was built with: together with the other three parts it rebuilds the group |
| WorkflowConfigurator.AccessorsReturnArguments | python/lsst/ctrl/orca/WorkflowConfigurator.py:77-121 | each of the four accessors returns exactly the constructor argument it names |
| WorkflowConfigurator.DatabaseSteps | python/lsst/ctrl/orca/WorkflowConfigurator.py:181-186 | one setup step per listed database, in the order listed, and none without a database list |
| WorkflowConfigurator.Configure | python/lsst/ctrl/orca/WorkflowConfigurator.py:142-158 | the databases are set up first, in order, then the specialised setup runs, and its launcher is the result |
| ProductionRunConfigurator.Overrides | python/lsst/ctrl/orca/ProductionRunConfigurator.py:86-95 | the override dictionary holds the broker host, the log threshold and the shutdown topic under their `execute.` keys, each exactly when the production section sets it, and nothing else |
| ProductionRunConfigurator.LoggerSpecOf | python/lsst/ctrl/orca/ProductionRunConfigurator.py:155-166 | a database asks for a logger manager exactly when its logger section sets `launch`; the manager gets the database's host, port and run database exactly when `launch` is true |
| ProductionRunConfigurator.LoggerSpecsAppend | python/lsst/ctrl/orca/ProductionRunConfigurator.py:149-167 | the logger managers of two lists of databases are those of the first followed by those of the second |
| ProductionRunConfigurator.LoggerSpecsAtMostOnePerDatabase | python/lsst/ctrl/orca/ProductionRunConfigurator.py:149-167 | at most one logger manager per database, and none when no database asks for one |
| ProductionRunConfigurator.FirstUnconfigured | python/lsst/ctrl/orca/ProductionRunConfigurator.py:179-186 | the first workflow entry whose configuration gives no launcher; none exactly when every entry gives one |
| ProductionRunConfigurator.ProductionRunConfigurator.constructor | python/lsst/ctrl/orca/ProductionRunConfigurator.py:48-95 | the configurator keeps the run id, config and repository, takes the broker host and the overrides from the production section, and has no database configurator and no logger manager yet |
| ProductionRunConfigurator.ProductionRunConfigurator.SetupDatabases | python/lsst/ctrl/orca/ProductionRunConfigurator.py:147-167 | every database's configurator is kept, in order, and one new logger manager without a process is appended per database that asks for one, with that database's coordinates; earlier managers stay as they were |
| ProductionRunConfigurator.ProductionRunConfigurator.CreateWorkflowManagers | python/lsst/ctrl/orca/ProductionRunConfigurator.py:177-190 | raises the `error configuring workflowLauncher` error when some entry gives no launcher; otherwise returns one new, distinct, configured manager per workflow entry, in order, named after its entry |
| ProductionRunConfigurator.ProductionRunConfigurator.Configure | python/lsst/ctrl/orca/ProductionRunConfigurator.py:121-190 | the databases are set up first and their logger managers kept even when a later step raises; a set `configurationClass` then raises AttributeError; otherwise the workflow managers as above |
| ProductionRunConfigurator.ProductionRunConfigurator.GetWorkflowNames | python/lsst/ctrl/orca/ProductionRunConfigurator.py:270-278 | the workflow names listed in the production config, as they stand |
| ProductionRunConfigurator.ProductionRunConfigurator.CheckConfiguration | python/lsst/ctrl/orca/ProductionRunConfigurator.py:201-232 | the database checks are handed the caller's `issueExc`, never the error built here, so this method's own raise never fires; assuming the database configurators' checks report nothing and raise nothing, the check never raises |
| ProductionRunManager.RepositoryOf | python/lsst/ctrl/orca/ProductionRunManager.py:98-107 | the repository is the given directory, else the configured one, resolved against the environment; `.` (unresolved) when neither is set or both are empty |
| ProductionRunManager.CheckCare | python/lsst/ctrl/orca/ProductionRunManager.py:193-196 | the check care level is never zero: the production's nonzero `configCheckCare`, else 1 |
| ProductionRunManager.SkipsCheck | python/lsst/ctrl/orca/ProductionRunManager.py:193-198 | the configuration check is skipped exactly when the caller asks for it or the care level is negative |
| ProductionRunManager.ByNameSound | python/lsst/ctrl/orca/ProductionRunManager.py:152-155 | every manager's name is a key of the table, and every key leads to a manager of the list that carries that name |
| ProductionRunManager.ByNameDistinct | python/lsst/ctrl/orca/ProductionRunManager.py:152-155 | when the names are distinct, every manager is found under its own name |
| ProductionRunManager.BuildTable | python/lsst/ctrl/orca/ProductionRunManager.py:152-155 | the table keeps the managers in configurator order and files each under its name, a later one of the same name winning |
| ProductionRunManager.ManagedNamesDistinct | python/lsst/ctrl/orca/ProductionRunConfigurator.py:177-190 | managers made from workflow entries with distinct names have distinct names |
| ProductionRunManager.ManagedCanLaunch | python/lsst/ctrl/orca/ProductionRunConfigurator.py:177-190 | freshly configured managers, made from entries that all give a launcher, are all runnable and have a launcher |
| ProductionRunManager.LaunchAt | python/lsst/ctrl/orca/ProductionRunManager.py:221-227 | one pass of the launch loop gives a monitor exactly when that manager could run and the loggers are started; the monitor is new, running and kept by that manager, and no other manager changes |
| ProductionRunManager.LaunchManagers | python/lsst/ctrl/orca/ProductionRunManager.py:221-227 | the managers are launched in table order and exactly one new, running monitor per manager is collected in that order; the loop ends at the first manager that gives none, and every manager after it is untouched |
| ProductionRunManager.StopManagers | python/lsst/ctrl/orca/ProductionRunManager.py:385-387 | every manager is asked to stop exactly once, in table order: the recorded actions are the DAG removals and end-of-log events of the managers, in that order |
| ProductionRunManager.PollManagers | python/lsst/ctrl/orca/ProductionRunManager.py:393-396 | one poll finds whether some manager runs (with no managers the previous answer stands) |
| ProductionRunManager.WaitForManagers | python/lsst/ctrl/orca/ProductionRunManager.py:389-398 | after the wait, the production still runs exactly when it ran before and either no poll was allowed, there is no manager to poll, or some manager still runs |
| ProductionRunManager.ProductionRunManager.constructor | python/lsst/ctrl/orca/ProductionRunManager.py:67-109 | a new production keeps its run id and configuration, resolves its repository as `RepositoryOf` says, and is neither running nor done, with no configurator, no manager table and no monitor |
| ProductionRunManager.ProductionRunManager.IsRunning | python/lsst/ctrl/orca/ProductionRunManager.py:237-256 | true exactly when some kept monitor runs; when none does, the production's running flag is cleared as a side effect, and nothing else changes |
| ProductionRunManager.ProductionRunManager.IsDone | python/lsst/ctrl/orca/ProductionRunManager.py:258-267 | a side-effect-free read: true exactly when the done flag is set |
| ProductionRunManager.ProductionRunManager.IsRunnable | python/lsst/ctrl/orca/ProductionRunManager.py:269-282 | runnable exactly when no kept monitor runs and the production is not done, with the running flag cleared as `IsRunning` does |
| ProductionRunManager.ProductionRunManager.GetWorkflowManager | python/lsst/ctrl/orca/ProductionRunManager.py:430-447 | None before configuration or for a name that is not in the table; otherwise the manager filed under that name |
| ProductionRunManager.ProductionRunManager.GetWorkflowManagerFinds | python/lsst/ctrl/orca/ProductionRunManager.py:430-447 | after configuration every manager is found under its name, a manager found under a name carries that name and belongs to the production, and None comes back exactly for a name no manager carries |
| ProductionRunManager.ProductionRunManager.Configure | python/lsst/ctrl/orca/ProductionRunManager.py:121-158 | ignored once a configurator exists; otherwise a new configurator is kept even when its `configure` raises (AttributeError for a `configurationClass`, a launcher error for an entry without one), and on success the table holds one new manager per workflow entry, in order, each also under its name |
| ProductionRunManager.ProductionRunManager.CheckConfigurationAsWritten | python/lsst/ctrl/orca/ProductionRunManager.py:310-353 | as written, the check raises AttributeError before configuration and KeyError after it as soon as there is one workflow; it passes only for a production with no workflow |
| ProductionRunManager.ProductionRunManager.CheckConfiguration | python/lsst/ctrl/orca/ProductionRunManager.py:310-353 | as intended, before configuration the problem is raised as a ConfigurationError, or added to the caller's issue list when one is given; after it, every manager is checked under its name and, assuming the database configurators' checks report nothing, nothing is raised or added |
| ProductionRunManager.ProductionRunManager.CheckAndLaunch | python/lsst/ctrl/orca/ProductionRunManager.py:212-227 | after the check (unless skipped), every workflow is started exactly when all managers could run and the loggers are started; then one new running monitor per manager is appended, in table order, after the monitors kept before |
| ProductionRunManager.ProductionRunManager.LaunchAll | python/lsst/ctrl/orca/ProductionRunManager.py:221-227 | the production is started exactly when all managers could run and the loggers are started; it then keeps one new running monitor per manager, in table order, after the earlier ones; otherwise it raises for the first manager that gives no monitor |
| ProductionRunManager.ProductionRunManager.StartProduction | python/lsst/ctrl/orca/ProductionRunManager.py:200-230 | the production is marked running and configured if it was not; each configuration failure is raised, a configurator without managers raises `Failed to obtain workflowManagers`, and otherwise it is started exactly when every manager could run and the loggers are started |
| ProductionRunManager.ProductionRunManager.RunProduction | python/lsst/ctrl/orca/ProductionRunManager.py:160-235 | refused, changing nothing but the running flag, when some monitor runs or the production is done; otherwise marked running and configured, checked and launched as `StartProduction` says, with the care level and skip decision of `CheckCare` and `SkipsCheck` |
| ProductionRunManager.ProductionRunManager.StopRunning | python/lsst/ctrl/orca/ProductionRunManager.py:385-407 | every manager is asked to stop in table order; the production becomes done and not running exactly when a poll was allowed, there is a manager, and none runs; otherwise the flags stay as they were |
| ProductionRunManager.ProductionRunManager.StopProduction | python/lsst/ctrl/orca/ProductionRunManager.py:355-407 | when no monitor runs, nothing is stopped, the running flag is cleared and None comes back; otherwise every manager is stopped in order, and the result says whether the production ended done and not running within the allowed polls |
| WorkflowMonitor.WorkflowMonitor.constructor | python/lsst/ctrl/orca/WorkflowMonitor.py:33-39 | a fresh monitor reports not running and not done, and has no status listener |
| WorkflowMonitor.WorkflowMonitor.AddStatusListener | python/lsst/ctrl/orca/WorkflowMonitor.py:41-50 | the listener is appended at the end, the earlier ones keep their order, and the flags do not change |
| WorkflowMonitor.WorkflowMonitor.HandleRequest | python/lsst/ctrl/orca/WorkflowMonitor.py:52-60 | handling a request changes nothing |
| WorkflowMonitor.WorkflowMonitor.HandleFailure | python/lsst/ctrl/orca/WorkflowMonitor.py:62-65 | handling a failure changes nothing |
| WorkflowMonitor.WorkflowMonitor.StopWorkflow | python/lsst/ctrl/orca/WorkflowMonitor.py:88-96 | the base monitor's stop changes nothing |
| WorkflowMonitor.WorkflowMonitor.IsRunning | python/lsst/ctrl/orca/WorkflowMonitor.py:67-75 | a side-effect-free read: true exactly when the running flag is set |
| WorkflowMonitor.WorkflowMonitor.IsDone | python/lsst/ctrl/orca/WorkflowMonitor.py:77-86 | a side-effect-free read: true exactly when the done flag is set |
| ServiceHandler.Decide | python/lsst/ctrl/orca/ServiceHandler.py:52-77 | any path but `/api/v1/production` is a bad request; on that path a missing or non-numeric `Content-length` raises before any answer; the stop is accepted exactly when the body is an object with both `level` and `runid` and the run id is this run's, and then with the body's `level`; everything else is unprocessable |
| ServiceHandler.MissingLevelRejected | python/lsst/ctrl/orca/ServiceHandler.py:63-66 | `level` is looked up before the run id is compared, so a body without it is unprocessable even when the run id is right |
| ServiceHandler.ErrorObject | python/lsst/ctrl/orca/ServiceHandler.py:79-91 | the error body is an object with exactly the keys `status` and `message`, holding the given texts |
| ServiceHandler.BadRequestAsWrittenIsMisframed | python/lsst/ctrl/orca/ServiceHandler.py:75-77 | as written, the 400 reply writes its error body before ending the header section, so it is not a status line, then the end of the headers, then the body |
| ServiceHandler.Delete | python/lsst/ctrl/orca/ServiceHandler.py:52-77 | every answered request gets a well-framed reply; 400 and 422 carry an error body, 204 has none; the production is asked to stop, with the body's level, exactly when the reply is 204 |
| ServiceHandler.DeleteDiffersOnlyInFraming | python/lsst/ctrl/orca/ServiceHandler.py:66-77 | the corrected reply makes the same stop call and the same writes as the reply as written, and differs from it only in the order of the 400 branch's writes |
| Directories.ToDict | python/lsst/ctrl/orca/Directories.py:164 | the config's dictionary has one entry per field, holding that field |
| Directories.DirNamesDistinct | python/lsst/ctrl/orca/Directories.py:186-188 | the five names `getDirs` fills in are distinct |
| Directories.ResolveRoot | python/lsst/ctrl/orca/Directories.py:111-116 | a root of `.` becomes the working directory, a relative root is joined under it, and an absolute root is kept |
| Directories.ResolvedRootIsAbsolute | python/lsst/ctrl/orca/Directories.py:111-116 | with an absolute working directory the default root is absolute |
| Directories.RunDirUnder | python/lsst/ctrl/orca/Directories.py:133-141 | an absolute formatted run directory loses exactly one leading separator and is joined under the root; a relative one is joined as it is |
| Directories.RunDirIsUnderRoot | python/lsst/ctrl/orca/Directories.py:133-141 | the run directory starts with the root, unless the formatted directory stays absolute after the one separator is dropped |
| Directories.NamedPath | python/lsst/ctrl/orca/Directories.py:172-175 | an absolute named directory is returned unchanged, a relative one is joined under the run directory |
| Directories.Directories.constructor | python/lsst/ctrl/orca/Directories.py:87-98 | the pattern data has exactly the keys `runid` and `shortname`, the run id defaults to `no-id`, and no root is cached |
| Directories.Directories.GetDefaultRootDir | python/lsst/ctrl/orca/Directories.py:100-117 | the first call resolves the root as `ResolveRoot` says and caches it; later calls return the cached root whatever the working directory is |
| Directories.Directories.GetDefaultRunDir | python/lsst/ctrl/orca/Directories.py:121-141 | the formatted run pattern under the (cached) default root, as `RunDirUnder` says |
| Directories.Directories.GetNamedDirectoryAsWritten | python/lsst/ctrl/orca/Directories.py:143-175 | as written, a name the config lacks raises KeyError and leaves the cache alone; a configured name gives its formatted directory, absolute as it is and relative under the run directory |
| Directories.Directories.Lookup | python/lsst/ctrl/orca/Directories.py:163-170 | the pattern looked up for a name is its own entry, or the update directory's when the config lacks the name |
| Directories.Directories.GetNamedDirectory | python/lsst/ctrl/orca/Directories.py:143-175 | as documented, every name gives a directory: the formatted pattern `Lookup` finds, absolute as it is and relative under the run directory; only a relative one resolves and caches the root |
| Directories.Directories.Resolved | python/lsst/ctrl/orca/Directories.py:166-175 | an absolute named directory is kept; a relative one goes under the run directory of the resolved root |
| Directories.Directories.DirsMap | python/lsst/ctrl/orca/Directories.py:186-188 | the map filled for a list of names has exactly those names as keys |
| Directories.Directories.DirsMapRootless | python/lsst/ctrl/orca/Directories.py:186-188 | when every name so far is absolute, resolving the root later changes none of their directories |
| Directories.Directories.DirsMapStep | python/lsst/ctrl/orca/Directories.py:186-188 | adding the next name's directory to the map so far gives the map for one more name, even when that name resolved the root |
| Directories.Directories.AllAbsoluteStep | python/lsst/ctrl/orca/Directories.py:186-188 | one more absolute name keeps a prefix of absolute names absolute |
| Directories.Directories.DirsMapAt | python/lsst/ctrl/orca/Directories.py:186-188 | for distinct names, each maps to its own resolved directory |
| Directories.Directories.GetDirs | python/lsst/ctrl/orca/Directories.py:177-188 | exactly the keys `workDir`, `inputDir`, `outputDir`, `updateDir` and `scratchDir`, each mapped to the directory `getNamedDirectory` gives it; the root stays unresolved only when all five are absolute, and a cached root is kept |
| Exceptions.Message | tests/testExceptions.py:46-86 | the message is `Unspecified configuration problems encountered` with no problem, the problem's own text with one, and with two or more the summary given at construction, or `Multiple configuration problems encountered` without one |
| Exceptions.SummaryOnlyFromSecondProblem | tests/testExceptions.py:46-86 | with fewer than two problems the message does not depend on the summary |
| Exceptions.MultiIssueConfigurationError.constructor | tests/testExceptions.py:54-61 | built with a problem, the error holds exactly that problem; built without, none; the summary is the given message |
| Exceptions.MultiIssueConfigurationError.AddProblem | tests/testExceptions.py:63-74 | a problem is appended at the end and the earlier ones keep their order |
| Exceptions.MultiIssueConfigurationError.HasProblems | tests/testExceptions.py:46-52 | true exactly when at least one problem is held |
| Exceptions.MultiIssueConfigurationError.GetProblems | tests/testExceptions.py:51-74 | the problems in the order they were added; the list is non-empty exactly when `hasProblems` holds |
| Exceptions.MultiIssueConfigurationError.Str | tests/testExceptions.py:46-86 | `str(err)` is the unspecified message without problems, the one problem's text with one, and the summary (or the generic message) with two or more |
| Exceptions.NoProblem | tests/testExceptions.py:46-52 | a fresh error has no problems, an empty list, and the message `Unspecified configuration problems encountered` |
| Exceptions.OneProblem | tests/testExceptions.py:54-61 | built with one problem, it holds exactly that problem and its message is that problem's text |
| Exceptions.TwoProblems | tests/testExceptions.py:63-74 | a second problem keeps insertion order and switches the message to `Multiple configuration problems encountered` |
| Exceptions.SummaryMessage | tests/testExceptions.py:76-86 | with a summary, the message is the unspecified one at no problem, the problem's text at one, and the summary at two |

## Left out

- ProductionRunManager.ProductionRunManager.CheckAndLaunch: uses the corrected `checkConfiguration` of the finding at ProductionRunManager.py:349. As written, a check that is not skipped raises KeyError there as soon as there is one workflow (reached from line 214), and no workflow is launched; this member launches instead. `CheckConfigurationAsWritten` records the as-written outcome.
- ProductionRunManager.ProductionRunManager.StartProduction: reaches the launch through `CheckAndLaunch`, so it reports a start where the code as written raises KeyError.
- ProductionRunManager.ProductionRunManager.RunProduction: reaches the launch through `StartProduction`, so with the check not skipped and at least one workflow it returns `Started` where the code as written raises KeyError.
- PyText.ParseInt, CondorJobs.ClusterAt: digits are the ASCII `0`-`9` only. Python's `int()` also accepts `_` separators and non-ASCII decimal digits, and the `\d` of `re` also matches non-ASCII digits; the model rejects both.
- The `__str__` of `ConfigGroup` builds a log string and is not modelled.
- Process I/O. `Popen`, `communicate`, `readline` and `chdir` are outside the model. A command's output is a sequence of lines, and a series of polls is a sequence of listings.
- `killCondorId`. It is not modelled; a DAG removal is recorded as an action, and `condor_rm`'s output is not read.
- The duplicated `waitForJobToRun`, `waitForAllJobsToRun` and `isJobAlive` of PegasusJobs.py. They are the CondorJobs members, so they are not modelled twice.
- CondorJobs.WaitForJobToRun, CondorJobs.WaitForAllJobsToRun: the source polls forever. The model polls a finite sequence of listings and reports that it is still waiting when they run out.
- CondorWorkflowMonitor.CondorWorkflowMonitor.Run: the thread's loop runs over a finite sequence of inputs. Running out of inputs is an end of its own.
- Concurrency. Threads, the `SharedData` locks, daemon threads and `time.sleep` are left out. Sleeps are recorded as numbers.
- The HTTP server. `ThreadedServer`, `_ServiceEndpoint`, `_startServiceThread` and `joinShutdownThread` are left out; only the handler's decision and its writes are modelled.
- The event system. Events are the `Event` datatype, and publishing one is an `Effects` record.
- JSON parsing. A body arrives parsed, or as None when it is not valid JSON.
- Python `%` formatting. Directories takes it as an uninterpreted function; the environment's `PWD` is a parameter, and so is `EnvString.resolve` in ProductionRunManager.
- Config loading. `NamedClassFactory` and `ProductionConfig.load` are left out, and configs are plain records. What a database configurator reports is part of its entry.
- Logging and `print` output.
- Files that are not part of this model:
  - CondorWorkflowLauncher.py, except for the launch step that `WorkflowLauncher` models;
  - PegasusWorkflowLauncher.py and PegasusWorkflowConfigurator.py;
  - FileWaiter.py and GenericFileWaiter.py;
  - bin.src/shutprod.py and bin.src/filewaiter.py;
  - the pex_config schemas under config/;
  - exceptions.py. MultiIssueConfigurationError follows tests/testExceptions.py instead.
- StatusListener.py and DatabaseConfigurator.py. StatusListener's methods do nothing, so it is an empty class. DatabaseConfigurator.py:49-55 defines only a constructor and a `setup` that does nothing, so database setup is a recorded step. The class that actually configures a database is named by its config's `configurationClass` and is not part of this model.
- ProductionRunConfigurator.ProductionRunConfigurator.CheckConfiguration, ProductionRunManager.ProductionRunManager.CheckConfiguration: the loop that calls `dbconfig.checkConfiguration(care, issueExc)` on every database configurator (ProductionRunConfigurator.py:226-228) is left out. The model assumes those checks add no problem and raise nothing. The configurator class is chosen by the config, so what its check does is unknown. The base class in DatabaseConfigurator.py has no `checkConfiguration` (nor `getDBInfo`) at all. Its constructor takes three arguments, while ProductionRunConfigurator.py:251 passes four.
- WorkflowLauncher.Launch: the launcher is data. It carries the output `condor_submit_dag` prints, and submission itself is not modelled.
- Logger managers are never handed down. `runWorkflow` is called with one argument at ProductionRunManager.py:226 but takes two (WorkflowManager.py:93). `launch` is called with two at WorkflowManager.py:110 but takes one (CondorWorkflowLauncher.py:65). The monitor is built with five arguments at CondorWorkflowLauncher.py:90-91 but takes six. As written, every launch raises TypeError. ProductionRunManager.ProductionRunManager.RunProduction, WorkflowManager.WorkflowManager.RunWorkflow and WorkflowLauncher.Launch therefore take the logger managers as a parameter. Nothing in the modelled code starts them; the model requires them started before a launch succeeds.
- ProductionRunManager.LaunchManagers: when `runWorkflow` returns False, the source appends False to its monitors and carries on, so a later `isRunning` raises AttributeError. The model ends the launch loop with a `WorkflowFailed` error for that manager instead.
- WorkflowConfigurator.Configure: `_configureSpecialized` is called with two arguments but takes one (WorkflowConfigurator.py:158). The specialised step is a parameter, and its result is what the model returns.
- ProductionRunManager.ProductionRunManager.StopProduction: the float timeout arithmetic is left out. The timeout is a number of polls.
- ProductionRunManager.ProductionRunManager.GetWorkflowManagerFinds: the table keeps the order apart from the names. A workflow named `__order`, or a lookup of that name, is not modelled.
- `getWorkflowNames` of ProductionRunManager. It returns the managers rather than their names, and its last branch calls `createConfigurator` with one argument. It is not modelled; ProductionRunConfigurator's `getWorkflowNames` is a field read.
- ServiceHandler.Delete: `stopProduction` is taken not to raise. If it did, the handler would send a 422 after the 204. Whether the output stream accepts the `str` that `writeError` passes it is also outside the model.
- ServiceHandler `setParent`: the run id it stores is a parameter of the decision, and the parent's `stopProduction` call is the reply's stop level.
- WorkflowManager.WorkflowManager.IsRunnable: a CondorWorkflowMonitor never sets done. A manager whose monitor has stopped therefore becomes runnable again, and the model keeps this.
- CondorWorkflowMonitor.CondorWorkflowMonitor.RunIteration: a DAG that left the queue only triggers the end-of-log event. It does not stop the monitor, and the model keeps this.
- ProductionRunConfigurator.ProductionRunConfigurator.Configure: a production that sets `configurationClass` calls the undefined `specializedConfigure`. The model keeps the AttributeError.
- Output lines that Python reads as bytes and then `decode()`s are plain strings here; no encoding is modelled.

## Findings

| source | as written | input that shows it | evidently intended | confidence | as-written member | corrected member |
|---|---|---|---|---|---|---|
| python/lsst/ctrl/orca/ProductionRunManager.py:349 | the check looks each workflow up with the manager object as key, but the table's keys are the names | a configured production with one workflow, run without skipping the check | look the manager up by `workflow.getName()`, as the launch and stop loops do | high, not executed | ProductionRunManager.ProductionRunManager.CheckConfigurationAsWritten | ProductionRunManager.ProductionRunManager.CheckConfiguration |
| python/lsst/ctrl/orca/ProductionRunManager.py:332 | before configuration the message is prefixed with `self._name`, an attribute the class never sets | `checkConfiguration()` called before `configure()` | raise a ConfigurationError for a production not yet configured, or add it to `issueExc` | high, not executed | ProductionRunManager.ProductionRunManager.CheckConfigurationAsWritten | ProductionRunManager.ProductionRunManager.CheckConfiguration |
| python/lsst/ctrl/orca/Directories.py:166-170 | only `pexExcept.Exception` is caught, so a name missing from the config dictionary raises KeyError | `getNamedDirectory("logDir")` | the update directory, as the method's documentation promises for a name the config lacks | high, not executed | Directories.Directories.GetNamedDirectoryAsWritten | Directories.Directories.GetNamedDirectory |
| python/lsst/ctrl/orca/ServiceHandler.py:75-77 | the 400 branch writes its error body before `end_headers`, so the body is sent inside the header section | a DELETE on any path other than `/api/v1/production` | end the headers first, then write the body, as the 422 branch does | medium, not executed | ServiceHandler.BadRequestAsWrittenIsMisframed | ServiceHandler.Delete |
