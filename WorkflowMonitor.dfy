/**
 * The base workflow monitor: two flags (`running`, `done`), both false at first, and an
 * ordered list of status listeners. Its request, failure and stop handlers do nothing.
 */
module WorkflowMonitor {

  /** A status listener; the listener interface has no behaviour of its own. */
  class StatusListener {
    constructor () {
    }
  }

  class WorkflowMonitor {
    var running: bool
    var done: bool
    var statusListeners: seq<StatusListener>

    /** A fresh monitor reports not running and not done, and has no listener. */
    constructor ()
      ensures !running && !done && statusListeners == []
    {
      running := false;
      done := false;
      statusListeners := [];
    }

    /** `addStatusListener`: appends at the end; nothing else changes. */
    method AddStatusListener(listener: StatusListener)
      modifies this
      ensures statusListeners == old(statusListeners) + [listener]
      ensures running == old(running) && done == old(done)
    {
      statusListeners := statusListeners + [listener];
    }

    /** `handleRequest` only logs. */
    method HandleRequest(request: map<string, string>)
      ensures unchanged(this)
    {
    }

    /** `handleFailure` only logs. */
    method HandleFailure()
      ensures unchanged(this)
    {
    }

    /** `stopWorkflow` of the base monitor only logs. */
    method StopWorkflow(urgency: int)
      ensures unchanged(this)
    {
    }

    function IsRunning(): (r: bool)
      reads this
      ensures r <==> running
    {
      running
    }

    function IsDone(): (r: bool)
      reads this
      ensures r <==> done
    {
      done
    }
  }
}
