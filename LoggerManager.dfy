/**
 * The manager of one `Logger.py` daemon: it remembers the event broker, the run id and
 * the optional database coordinates, starts the daemon at most once and stops it.
 * Spawning and killing processes are outside the model: the process id the operating
 * system assigns and whether the kill succeeded are parameters.
 */
module LoggerManager {
  import opened Wrappers
  import opened PyText

  /** A spawned `Logger.py`: its process id and the shell command it was started with. */
  datatype Process = Process(pid: int, cmd: string)

  /** `"%s" % x` for an optional string: the string, or `None`. */
  function Show(x: Option<string>): string {
    if x.Some? then x.value else "None"
  }

  /** `"%s" % port` for an optional integer. */
  function ShowInt(x: Option<int>): string {
    if x.Some? then DecimalString(x.value) else "None"
  }

  /** The argument words of the daemon command: the database form exactly when a database host is given. */
  function LoggerArgs(broker: string, runid: string, dbHost: Option<string>, dbPort: Option<int>, dbName: Option<string>): (r: seq<string>)
    ensures |r| == (if dbHost.Some? then 10 else 4)
    ensures r[0] == "--broker" && r[1] == broker
    ensures dbHost.None? ==> r[2] == "--runid" && r[3] == runid
    ensures dbHost.Some? ==> r[2] == "--host" && r[3] == dbHost.value && r[4] == "--port" && r[5] == ShowInt(dbPort) &&
                             r[6] == "--runid" && r[7] == runid && r[8] == "--database" && r[9] == Show(dbName)
  {
    if dbHost.None? then
      ["--broker", broker, "--runid", runid]
    else
      ["--broker", broker, "--host", dbHost.value, "--port", ShowInt(dbPort), "--runid", runid, "--database", Show(dbName)]
  }

  /** The command line `start` hands to the shell; `directory` is `$CTRL_ORCA_DIR`. */
  function LoggerCommand(directory: Option<string>, broker: string, runid: string,
                         dbHost: Option<string>, dbPort: Option<int>, dbName: Option<string>): (cmd: string)
    ensures var head := Show(directory) + "/bin/Logger.py" + " --broker " + broker + " ";
            |head| <= |cmd| && cmd[..|head|] == head
  {
    var script := Show(directory) + "/bin/Logger.py";
    var args := LoggerArgs(broker, runid, dbHost, dbPort, dbName);
    CommandStartsWithBroker(script, args);
    JoinWords([script] + args)
  }

  /** A command whose arguments start with `--broker` and its value starts with the script, the option and the value. */
  lemma CommandStartsWithBroker(script: string, args: seq<string>)
    requires |args| >= 3 && args[0] == "--broker"
    ensures var head := script + " --broker " + args[1] + " ";
            |head| <= |JoinWords([script] + args)| && JoinWords([script] + args)[..|head|] == head
  {
    var head := script + " --broker " + args[1] + " ";
    var rest := JoinWords(args[2..]);
    assert ([script] + args)[1..] == args;
    assert args[1..][1..] == args[2..];
    assert JoinWords(args[1..]) == args[1] + " " + rest;
    assert JoinWords([script] + args) == head + rest;
  }

  /**
   * When no value holds whitespace, the shell splits the command into the script and exactly
   * the options above: `--host`, `--port` and `--database` appear exactly when a database host is given.
   */
  lemma LoggerCommandWords(directory: Option<string>, broker: string, runid: string,
                           dbHost: Option<string>, dbPort: Option<int>, dbName: Option<string>)
    requires IsWord(Show(directory)) && IsWord(broker) && IsWord(runid)
    requires dbHost.Some? ==> IsWord(dbHost.value) && IsWord(Show(dbName))
    ensures Tokens(LoggerCommand(directory, broker, runid, dbHost, dbPort, dbName)) ==
            [Show(directory) + "/bin/Logger.py"] + LoggerArgs(broker, runid, dbHost, dbPort, dbName)
  {
    var ws := [Show(directory) + "/bin/Logger.py"] + LoggerArgs(broker, runid, dbHost, dbPort, dbName);
    assert IsWord(ws[0]) by {
      var d := Show(directory);
      assert forall m :: 0 <= m < |d| ==> ws[0][m] == d[m];
      forall m | |d| <= m < |ws[0]| ensures !IsSpace(ws[0][m]) {
        assert ws[0][m] == "/bin/Logger.py"[m - |d|];
      }
    }
    if dbHost.Some? {
      ShowIntIsWord(dbPort);
    }
    TokensOfJoinWords(ws);
  }

  lemma ShowIntIsWord(x: Option<int>)
    ensures IsWord(ShowInt(x))
  {
    if x.Some? {
      var n := x.value;
      var d := NatDigits(if n < 0 then -n else n);
      assert forall m :: 0 <= m < |d| ==> !IsSpace(d[m]) by {
        forall m | 0 <= m < |d| ensures !IsSpace(d[m]) { assert IsDigit(d[m]); }
      }
      if n < 0 {
        assert DecimalString(n) == "-" + d;
        assert forall m :: 1 <= m < |DecimalString(n)| ==> DecimalString(n)[m] == d[m - 1];
      }
    }
  }

  class LoggerManager {
    const broker: string
    const runid: string
    const dbHost: Option<string>
    const dbPort: Option<int>
    const dbName: Option<string>
    var process: Option<Process>

    /** A new manager has no process. */
    constructor (broker: string, runid: string, dbHost: Option<string>, dbPort: Option<int>, dbName: Option<string>)
      ensures this.broker == broker && this.runid == runid
      ensures this.dbHost == dbHost && this.dbPort == dbPort && this.dbName == dbName
      ensures process.None?
    {
      this.broker := broker;
      this.runid := runid;
      this.dbHost := dbHost;
      this.dbPort := dbPort;
      this.dbName := dbName;
      process := None;
    }

    /** `getPID`: the daemon's process id; without a process Python raises AttributeError (None here). */
    function GetPID(): (r: Option<int>)
      reads this
      ensures r.Some? <==> process.Some?
      ensures r.Some? ==> r.value == process.value.pid
    {
      if process.Some? then Some(process.value.pid) else None
    }

    /** `start`: a no-op when a process exists; otherwise spawn the command (the system assigns `pid`). */
    method Start(directory: Option<string>, pid: int)
      modifies this
      ensures old(process).Some? ==> process == old(process)
      ensures old(process).None? ==>
                process == Some(Process(pid, LoggerCommand(directory, broker, runid, dbHost, dbPort, dbName)))
    {
      if process.Some? {
        return;
      }
      var cmd := LoggerCommand(directory, broker, runid, dbHost, dbPort, dbName);
      process := Some(Process(pid, cmd));
    }

    /** `stop`: a no-op without a process; a successful kill clears the process, a failed one keeps it. */
    method Stop(killSucceeds: bool)
      modifies this
      ensures old(process).None? ==> process.None?
      ensures old(process).Some? ==> process == (if killSucceeds then None else old(process))
    {
      if process.None? {
        return;
      }
      if killSucceeds {
        process := None;
      }
    }
  }

  /** The process ids of managers that all have a process, in their order. */
  function LoggerPIDs(ms: seq<LoggerManager>): (r: seq<int>)
    requires forall k :: 0 <= k < |ms| ==> ms[k].process.Some?
    reads set k | 0 <= k < |ms| :: ms[k]
    ensures |r| == |ms|
    ensures forall k :: 0 <= k < |ms| ==> r[k] == ms[k].process.value.pid
  {
    if ms == [] then [] else LoggerPIDs(ms[..|ms| - 1]) + [ms[|ms| - 1].process.value.pid]
  }
}
