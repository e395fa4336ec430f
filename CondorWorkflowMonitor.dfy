/**
 * The HTCondor workflow monitor. Its thread polls two event receivers (the orca monitor
 * topic and the `LoggerStatus` topic) and the HTCondor queue. A `STATUS` event naming a logger
 * takes that logger off the list, and the last one leaving stops the monitor. A `COMMAND`
 * event stops it at once. When the DAG has left the queue, the loggers are told, once, that
 * the log is over.
 *
 * The thread's loop is modelled over a finite sequence of inputs. Each input holds what the
 * two receivers and `condor_q` deliver in one pass. What the monitor sends to the outside
 * world (`condor_rm`, the end-of-log event) is recorded in an `Effects` log.
 */
module CondorWorkflowMonitor {
  import opened Wrappers
  import opened CondorJobs
  import opened LoggerManager
  import opened WorkflowMonitor

  /** An outside effect: `condor_rm` of a cluster, or the `eol` logging event for a run. */
  datatype Action = CondorRm(cid: string) | EndOfLog(runid: string)

  /** The record of the effects, in the order they happened. */
  class Effects {
    var actions: seq<Action>

    constructor ()
      ensures actions == []
    {
      actions := [];
    }

    method Record(a: Action)
      modifies this
      ensures actions == old(actions) + [a]
    {
      actions := actions + [a];
    }
  }

  /**
   * An event as `handleEvent` sees it: a `STATUS` event, carrying the `logger.pid` when it
   * has a `logger.status` property; a `COMMAND` event; or any other type.
   */
  datatype Event = Status(loggerPid: Option<int>) | Command | Other

  /** `list.remove(x)`: the first occurrence goes; a missing `x` leaves the list alone. */
  function RemoveFirst(s: seq<int>, x: int): (r: seq<int>)
    ensures x in s ==> |r| == |s| - 1
    ensures x !in s ==> r == s
  {
    if s == [] then []
    else if s[0] == x then s[1..]
    else [s[0]] + RemoveFirst(s[1..], x)
  }

  /** What goes is the first occurrence of `x`; the elements before and after it keep their order. */
  lemma {:induction false} RemoveFirstSplit(s: seq<int>, x: int) returns (k: nat)
    requires x in s
    ensures k < |s| && s[k] == x && x !in s[..k] && RemoveFirst(s, x) == s[..k] + s[k + 1..]
  {
    if s[0] == x {
      k := 0;
    } else {
      var j := RemoveFirstSplit(s[1..], x);
      k := j + 1;
      assert s[..k] == [s[0]] + s[1..][..j];
      assert s[k + 1..] == s[1..][j + 1..];
    }
  }

  /** Removing an element takes exactly one copy of it out of the multiset. */
  lemma {:induction false} RemoveFirstMultiset(s: seq<int>, x: int)
    ensures multiset(RemoveFirst(s, x)) == multiset(s) - multiset{x}
  {
    if x in s {
      var k := RemoveFirstSplit(s, x);
      assert s == s[..k] + [x] + s[k + 1..];
      calc {
        multiset(s);
        multiset(s[..k] + [x] + s[k + 1..]);
        multiset(s[..k]) + multiset{x} + multiset(s[k + 1..]);
        multiset(s[..k] + s[k + 1..]) + multiset{x};
      }
    } else {
      assert multiset(s)[x] == 0;
      assert multiset(s) - multiset{x} == multiset(s);
    }
  }

  /** The part of the monitor its thread changes: the running flag, the logger pids, the eol flag. */
  datatype MonitorState = MonitorState(running: bool, pids: seq<int>, sentLast: bool)

  /** `handleEvent` on the state. */
  function AfterEvent(s: MonitorState, e: Event): (r: MonitorState)
    ensures r.sentLast == s.sentLast
    ensures multiset(r.pids) <= multiset(s.pids)
    ensures e.Status? && e.loggerPid.Some? && e.loggerPid.value in s.pids ==>
              multiset(r.pids) == multiset(s.pids) - multiset{e.loggerPid.value}
    ensures !(e.Status? && e.loggerPid.Some? && e.loggerPid.value in s.pids) ==> r.pids == s.pids
    ensures r.running <==> s.running && !e.Command? && !(e.Status? && r.pids == [])
  {
    match e
    case Status(pid) =>
      if pid.Some? && pid.value in s.pids then
        RemoveFirstMultiset(s.pids, pid.value);
        var pids := RemoveFirst(s.pids, pid.value);
        s.(pids := pids, running := s.running && pids != [])
      else
        s.(running := s.running && s.pids != [])
    case Command => s.(running := false)
    case Other => s
  }

  /** The state after a sequence of events, in order. */
  function AfterEvents(s: MonitorState, es: seq<Event>): MonitorState
    decreases |es|
  {
    if es == [] then s else AfterEvents(AfterEvent(s, es[0]), es[1..])
  }

  /** One `STATUS` event from each logger, in the order the loggers were recorded. */
  function Reports(pids: seq<int>): (r: seq<Event>)
    ensures |r| == |pids| && forall k :: 0 <= k < |r| ==> r[k] == Status(Some(pids[k]))
  {
    if pids == [] then [] else [Status(Some(pids[0]))] + Reports(pids[1..])
  }

  /** When every logger has reported, the pid list is empty and the monitor has stopped. */
  lemma {:induction false} AllReportsStop(s: MonitorState)
    requires s.pids != []
    ensures AfterEvents(s, Reports(s.pids)).pids == []
    ensures !AfterEvents(s, Reports(s.pids)).running
    decreases |s.pids|
  {
    var es := Reports(s.pids);
    var s1 := AfterEvent(s, es[0]);
    assert s1.pids == s.pids[1..];
    assert es[1..] == Reports(s.pids[1..]);
    if s.pids[1..] == [] {
      assert es[1..] == [];
    } else {
      AllReportsStop(s1);
    }
  }

  /** What the thread reads in one pass: the two receivers' events (if any) and the `condor_q -af ClusterId` lines. */
  datatype StepInput = StepInput(event: Option<Event>, logEvent: Option<Event>, queue: seq<string>)

  /** How one pass ends: the thread returns, goes on after sleeping `sleep` seconds, or dies of a `ValueError`. */
  datatype StepOutcome = Exit | Continue(sleep: int) | Crashed(error: AliveError)

  /**
   * One pass of the thread's loop, after its sleep: the orca event is handled, or else the logger
   * event; the thread returns when that stopped the monitor. The next sleep is the check interval
   * only when both receivers delivered something. A DAG that is no longer in the queue triggers the
   * end-of-log event.
   */
  function Step(s: MonitorState, interval: int, dagId: string, input: StepInput): (r: (MonitorState, StepOutcome))
    ensures r.1.Exit? ==> !r.0.running && (input.event.Some? || input.logEvent.Some?)
    ensures r.1.Continue? ==> r.1.sleep == (if input.event.Some? && input.logEvent.Some? then interval else 0)
    ensures input.event.Some? ==> r.0.pids == AfterEvent(s, input.event.value).pids
    ensures input.event.None? && input.logEvent.Some? ==> r.0.pids == AfterEvent(s, input.logEvent.value).pids
    ensures input.event.None? && input.logEvent.None? ==> r.0.pids == s.pids && r.0.running == s.running
    ensures r.0.sentLast <==> s.sentLast || (r.1.Continue? && JobAlive(dagId, input.queue) == Success(false))
    ensures r.1.Crashed? <==> !r.1.Exit? && JobAlive(dagId, input.queue).Failure?
  {
    var s1 := if input.event.Some? then AfterEvent(s, input.event.value)
              else if input.logEvent.Some? then AfterEvent(s, input.logEvent.value)
              else s;
    if (input.event.Some? || input.logEvent.Some?) && !s1.running then (s1, Exit)
    else
      var sleep := if input.event.None? || input.logEvent.None? then 0 else interval;
      match JobAlive(dagId, input.queue)
      case Failure(err) => (s1, Crashed(err))
      case Success(alive) => (if alive then s1 else s1.(sentLast := true), Continue(sleep))
  }

  /** How the modelled run ends: the thread returned, died, or the inputs ran out while it was still polling. */
  datatype RunEnd = Exited | ThreadCrashed(error: AliveError) | InputExhausted

  /** The final state, the sleep of each pass (0: no sleep) and how the run ended. */
  datatype RunTrace = RunTrace(state: MonitorState, sleeps: seq<int>, end: RunEnd)

  /** The thread's loop over `inputs`, the first pass sleeping `sleep` seconds. */
  function RunFrom(s: MonitorState, interval: int, dagId: string, inputs: seq<StepInput>, sleep: int): RunTrace
    decreases |inputs|
  {
    if inputs == [] then RunTrace(s, [], InputExhausted)
    else
      var r := Step(s, interval, dagId, inputs[0]);
      match r.1
      case Exit => RunTrace(r.0, [sleep], Exited)
      case Crashed(err) => RunTrace(r.0, [sleep], ThreadCrashed(err))
      case Continue(next) =>
        var t := RunFrom(r.0, interval, dagId, inputs[1..], next);
        RunTrace(t.state, [sleep] + t.sleeps, t.end)
  }

  /** The loop from input `k` on, after the sleeps `prefix`, is one step followed by the rest. */
  lemma RunFromStepped(s: MonitorState, interval: int, dagId: string, inputs: seq<StepInput>, k: nat, sleep: int, prefix: seq<int>)
    requires k < |inputs|
    ensures var r := Step(s, interval, dagId, inputs[k]);
            var t0 := RunFrom(s, interval, dagId, inputs[k..], sleep);
            RunTrace(t0.state, prefix + t0.sleeps, t0.end) ==
              match r.1
              case Exit => RunTrace(r.0, prefix + [sleep], Exited)
              case Crashed(err) => RunTrace(r.0, prefix + [sleep], ThreadCrashed(err))
              case Continue(next) =>
                var t := RunFrom(r.0, interval, dagId, inputs[k + 1..], next);
                RunTrace(t.state, (prefix + [sleep]) + t.sleeps, t.end)
  {
    assert inputs[k..][0] == inputs[k];
    assert inputs[k..][1..] == inputs[k + 1..];
    var r := Step(s, interval, dagId, inputs[k]);
    if r.1.Continue? {
      var t := RunFrom(r.0, interval, dagId, inputs[k + 1..], r.1.sleep);
      assert prefix + ([sleep] + t.sleeps) == (prefix + [sleep]) + t.sleeps;
    }
  }

  /** Both receivers delivered something in this input. */
  predicate BothDelivered(input: StepInput) {
    input.event.Some? && input.logEvent.Some?
  }

  /**
   * The thread sleeps the check interval before its first pass, and before each later pass the
   * check interval when the previous pass had both events, otherwise not at all. It makes one
   * pass per input until it stops.
   */
  lemma {:induction false} RunSleeps(s: MonitorState, interval: int, dagId: string, inputs: seq<StepInput>, sleep: int)
    ensures var t := RunFrom(s, interval, dagId, inputs, sleep);
            |t.sleeps| <= |inputs| && (t.end.InputExhausted? ==> |t.sleeps| == |inputs|) &&
            (inputs != [] ==> |t.sleeps| > 0 && t.sleeps[0] == sleep) &&
            forall k :: 0 < k < |t.sleeps| ==> t.sleeps[k] == (if BothDelivered(inputs[k - 1]) then interval else 0)
    decreases |inputs|
  {
    if inputs != [] {
      var r := Step(s, interval, dagId, inputs[0]);
      if r.1.Continue? {
        var t := RunFrom(r.0, interval, dagId, inputs[1..], r.1.sleep);
        RunSleeps(r.0, interval, dagId, inputs[1..], r.1.sleep);
        var t0 := RunFrom(s, interval, dagId, inputs, sleep);
        assert t0.sleeps == [sleep] + t.sleeps;
        forall k | 0 < k < |t0.sleeps|
          ensures t0.sleeps[k] == (if BothDelivered(inputs[k - 1]) then interval else 0)
        {
          if k > 1 {
            assert t0.sleeps[k] == t.sleeps[k - 1];
            assert inputs[1..][k - 2] == inputs[k - 1];
          }
        }
      }
    }
  }

  /**
   * The thread returns only when the monitor has stopped, the logger pid list only loses
   * entries, and the end-of-log flag, once set, stays set.
   */
  lemma {:induction false} RunKeeps(s: MonitorState, interval: int, dagId: string, inputs: seq<StepInput>, sleep: int)
    ensures var t := RunFrom(s, interval, dagId, inputs, sleep);
            (t.end.Exited? ==> !t.state.running) &&
            multiset(t.state.pids) <= multiset(s.pids) &&
            (s.sentLast ==> t.state.sentLast)
    decreases |inputs|
  {
    if inputs != [] {
      var r := Step(s, interval, dagId, inputs[0]);
      if r.1.Continue? {
        RunKeeps(r.0, interval, dagId, inputs[1..], r.1.sleep);
      }
    }
  }

  /** Without events the thread never stops on its own: a DAG that left the queue only triggers the end-of-log event. */
  lemma {:induction false} QuietRunNeverExits(s: MonitorState, interval: int, dagId: string, inputs: seq<StepInput>, sleep: int)
    requires forall k :: 0 <= k < |inputs| ==> inputs[k].event.None? && inputs[k].logEvent.None?
    ensures !RunFrom(s, interval, dagId, inputs, sleep).end.Exited?
    ensures RunFrom(s, interval, dagId, inputs, sleep).state.running == s.running
    decreases |inputs|
  {
    if inputs != [] {
      var r := Step(s, interval, dagId, inputs[0]);
      if r.1.Continue? {
        QuietRunNeverExits(r.0, interval, dagId, inputs[1..], r.1.sleep);
      }
    }
  }

  class CondorWorkflowMonitor {
    const base: WorkflowMonitor
    const eventBrokerHost: string
    const shutdownTopic: string
    const runid: string
    const condorDagId: string
    const statusCheckInterval: int
    var loggerPIDs: seq<int>
    var sentLastLoggerEvent: bool
    var threadStarted: bool
    ghost const initialPIDs: seq<int>

    /** The logger pid list never gains an entry, and nothing sets `done`. */
    ghost predicate Valid()
      reads this, base
    {
      !base.done && multiset(loggerPIDs) <= multiset(initialPIDs)
    }

    /** The part of the object the thread changes. */
    function State(): MonitorState
      reads this, base
    {
      MonitorState(base.running, loggerPIDs, sentLastLoggerEvent)
    }

    /**
     * The monitor records one pid per logger manager, in order, and starts neither running
     * nor done. Every manager must have a process (see `WorkflowLauncher.Launch` for the other case).
     */
    constructor (eventBrokerHost: string, shutdownTopic: string, runid: string, condorDagId: string,
                 loggerManagers: seq<LoggerManager>, statusCheckInterval: int)
      requires forall k :: 0 <= k < |loggerManagers| ==> loggerManagers[k].process.Some?
      ensures loggerPIDs == LoggerPIDs(loggerManagers)
      ensures this.eventBrokerHost == eventBrokerHost && this.shutdownTopic == shutdownTopic
      ensures this.runid == runid && this.condorDagId == condorDagId && this.statusCheckInterval == statusCheckInterval
      ensures fresh(base) && !base.running && !base.done && base.statusListeners == []
      ensures !sentLastLoggerEvent && !threadStarted
      ensures Valid()
    {
      var pids: seq<int> := [];
      var k := 0;
      while k < |loggerManagers|
        invariant 0 <= k <= |loggerManagers|
        invariant pids == LoggerPIDs(loggerManagers[..k])
      {
        assert loggerManagers[..k + 1][..k] == loggerManagers[..k];
        var pid := loggerManagers[k].GetPID();
        pids := pids + [pid.value];
        k := k + 1;
      }
      assert loggerManagers[..k] == loggerManagers;
      base := new WorkflowMonitor();
      this.eventBrokerHost := eventBrokerHost;
      this.shutdownTopic := shutdownTopic;
      this.runid := runid;
      this.condorDagId := condorDagId;
      this.statusCheckInterval := statusCheckInterval;
      loggerPIDs := pids;
      initialPIDs := pids;
      sentLastLoggerEvent := false;
      threadStarted := false;
    }

    function IsRunning(): (r: bool)
      reads this, base
      ensures r <==> base.running
    {
      base.IsRunning()
    }

    function IsDone(): (r: bool)
      reads this, base
      ensures r <==> base.done
    {
      base.IsDone()
    }

    method AddStatusListener(listener: StatusListener)
      requires Valid()
      modifies base
      ensures Valid()
      ensures base.statusListeners == old(base.statusListeners) + [listener]
      ensures base.running == old(base.running) && base.done == old(base.done)
      ensures loggerPIDs == old(loggerPIDs) && sentLastLoggerEvent == old(sentLastLoggerEvent) && threadStarted == old(threadStarted)
    {
      base.AddStatusListener(listener);
    }

    /** `startMonitorThread`: starts the thread and sets `running`; a second start fails (RuntimeError), reported as false. */
    method StartMonitorThread() returns (started: bool)
      modifies this, base
      ensures started <==> !old(threadStarted)
      ensures threadStarted
      ensures base.running == (if started then true else old(base.running))
      ensures loggerPIDs == old(loggerPIDs) && sentLastLoggerEvent == old(sentLastLoggerEvent)
      ensures base.done == old(base.done) && base.statusListeners == old(base.statusListeners)
    {
      if threadStarted {
        return false;
      }
      threadStarted := true;
      base.running := true;
      return true;
    }

    /** `handleEvent` */
    method HandleEvent(e: Event)
      requires Valid()
      modifies this, base
      ensures State() == AfterEvent(old(State()), e)
      ensures threadStarted == old(threadStarted)
      ensures base.done == old(base.done) && base.statusListeners == old(base.statusListeners)
      ensures Valid()
    {
      ghost var after := AfterEvent(State(), e);
      match e {
        case Status(pid) =>
          if pid.Some? && pid.value in loggerPIDs {
            loggerPIDs := RemoveFirst(loggerPIDs, pid.value);
          }
          if |loggerPIDs| == 0 {
            base.running := false;
          }
        case Command =>
          base.running := false;
        case Other =>
      }
      assert State() == after;
      assert multiset(loggerPIDs) <= multiset(old(loggerPIDs));
    }

    /** `sendLastLoggerEvent`: publishes the end-of-log event for this run the first time only. */
    method SendLastLoggerEvent(fx: Effects)
      modifies this, fx
      ensures sentLastLoggerEvent
      ensures fx.actions == old(fx.actions) + (if old(sentLastLoggerEvent) then [] else [EndOfLog(runid)])
      ensures loggerPIDs == old(loggerPIDs) && threadStarted == old(threadStarted)
    {
      if !sentLastLoggerEvent {
        fx.Record(EndOfLog(runid));
        sentLastLoggerEvent := true;
      }
    }

    /** `stopWorkflow`: `condor_rm` of the DAG, then the end-of-log event (if not sent yet); the flags stay as they are. */
    method StopWorkflow(urgency: int, fx: Effects)
      modifies this, fx
      ensures sentLastLoggerEvent
      ensures fx.actions == old(fx.actions) + [CondorRm(condorDagId)] +
                            (if old(sentLastLoggerEvent) then [] else [EndOfLog(runid)])
      ensures loggerPIDs == old(loggerPIDs) && threadStarted == old(threadStarted)
    {
      fx.Record(CondorRm(condorDagId));
      SendLastLoggerEvent(fx);
    }

    /** One pass of the thread's loop, after its sleep. */
    method RunIteration(input: StepInput, fx: Effects) returns (outcome: StepOutcome)
      requires Valid()
      modifies this, base, fx
      ensures (State(), outcome) == Step(old(State()), statusCheckInterval, condorDagId, input)
      ensures fx.actions == old(fx.actions) + (if !old(sentLastLoggerEvent) && sentLastLoggerEvent then [EndOfLog(runid)] else [])
      ensures threadStarted == old(threadStarted)
      ensures base.statusListeners == old(base.statusListeners)
      ensures Valid()
    {
      ghost var s := State();
      if input.event.Some? {
        HandleEvent(input.event.value);
        if !base.running {
          return Exit;
        }
      } else if input.logEvent.Some? {
        HandleEvent(input.logEvent.value);
        if !base.running {
          return Exit;
        }
      }
      var sleep := if input.event.None? || input.logEvent.None? then 0 else statusCheckInterval;
      var alive := IsJobAlive(condorDagId, input.queue);
      if alive.Failure? {
        return Crashed(alive.error);
      }
      if !alive.value {
        SendLastLoggerEvent(fx);
      }
      return Continue(sleep);
    }

    /** `run` of the monitor thread over a finite sequence of inputs; `sleeps` are the intervals slept. */
    method Run(inputs: seq<StepInput>, fx: Effects) returns (sleeps: seq<int>, end: RunEnd)
      requires Valid()
      modifies this, base, fx
      ensures RunFrom(old(State()), statusCheckInterval, condorDagId, inputs, statusCheckInterval) == RunTrace(State(), sleeps, end)
      ensures fx.actions == old(fx.actions) + (if !old(sentLastLoggerEvent) && sentLastLoggerEvent then [EndOfLog(runid)] else [])
      ensures Valid()
    {
      ghost var s0 := State();
      var sleepInterval := statusCheckInterval;
      sleeps := [];
      var k := 0;
      while k < |inputs|
        invariant 0 <= k <= |inputs|
        invariant Valid()
        invariant var t := RunFrom(State(), statusCheckInterval, condorDagId, inputs[k..], sleepInterval);
                  RunFrom(s0, statusCheckInterval, condorDagId, inputs, statusCheckInterval) == RunTrace(t.state, sleeps + t.sleeps, t.end)
        invariant s0.sentLast ==> sentLastLoggerEvent
        invariant fx.actions == old(fx.actions) + (if !s0.sentLast && sentLastLoggerEvent then [EndOfLog(runid)] else [])
      {
        RunFromStepped(State(), statusCheckInterval, condorDagId, inputs, k, sleepInterval, sleeps);
        sleeps := sleeps + [sleepInterval];
        var outcome := RunIteration(inputs[k], fx);
        match outcome {
          case Exit =>
            return sleeps, Exited;
          case Crashed(err) =>
            return sleeps, ThreadCrashed(err);
          case Continue(next) =>
            sleepInterval := next;
        }
        k := k + 1;
      }
      return sleeps, InputExhausted;
    }
  }
}
