/**
 * Liveness checks and service control. A check runs the configured probes in a fixed order
 * (health URL, port, PID file, process name), threading one status record through them and
 * stopping at the first probe that finds the service running. The controller chooses which
 * configured command to hand to the executor for start, stop and restart.
 *
 * What the operating system and the network answer is not modelled: each probe receives an
 * `Observation` of it, and the executor is a function from command to result.
 */
module Monitor {
  import opened Wrappers
  import opened Config

  datatype CheckMethod = Unknown | HealthUrl | Port | PidFile | ProcessName

  /** Why a probe did not confirm the service, with what its message reports. */
  datatype ProbeError =
    | HealthStatus(code: int)              // the health URL answered with status >= 500
    | HealthTimeout(seconds: int)          // the health request timed out after `health_timeout`
    | HealthRequestFailed(detail: string)  // any other request error
    | PortNotListening(port: int)
    | SocketError(detail: string)
    | PidFileNotFound(path: string)
    | StalePidFile(pid: int)               // the PID in the file does not exist
    | InvalidPidFile(path: string)         // the file does not hold an integer
    | ProcessNotFound(pid: int)            // the process vanished while being inspected

  /** The outcome of one check (resource figures such as CPU and memory are not modelled). */
  datatype ServiceStatus = ServiceStatus(
    name: string,
    running: bool,
    pid: Option<int>,
    checkMethod: CheckMethod,
    error: Option<ProbeError>)
  {
    /** A service is healthy when it runs and no probe reported an error. */
    predicate Healthy() {
      running && error.None?
    }
  }

  function InitialStatus(name: string): ServiceStatus {
    ServiceStatus(name, false, None, Unknown, None)
  }

  // ---------------------------------------------------------------------------------------------
  // What the probes observe
  // ---------------------------------------------------------------------------------------------

  /** The health URL request: a response with its status code, a timeout, or another error. */
  datatype HealthResponse = Responded(statusCode: int) | RequestTimedOut | RequestFailed(detail: string)

  /** `connect_ex` to the port: its return code and the listening process found, or an exception. */
  datatype ConnectOutcome = ConnectReturned(errno: int, listenerPid: Option<int>) | ConnectRaised(detail: string)

  /** Reading the PID file and looking the process up. */
  datatype PidLookup =
    | NoPidFile
    | NotAnInteger
    | PidInFile(pid: int, alive: bool)  // `pid_exists` answered `alive`
    | VanishedOnOpen(pid: int)           // the process disappeared before it could be opened
    | VanishedOnRead(pid: int)           // the process disappeared while its figures were read

  /** Everything the four probes could observe about one service at one moment. */
  datatype Observation = Observation(
    health: HealthResponse,
    connect: ConnectOutcome,
    pidLookup: PidLookup,
    processMatch: Option<int>)  // the PID of the first process with the configured name

  // ---------------------------------------------------------------------------------------------
  // The probes
  // ---------------------------------------------------------------------------------------------

  /** The health URL probe. */
  function ProbeHealthUrl(status: ServiceStatus, cfg: ServiceConfig, r: HealthResponse): ServiceStatus {
    var s := status.(checkMethod := HealthUrl);
    match r
    case Responded(code) =>
      if code < 500 then s.(running := true) else s.(running := false, error := Some(HealthStatus(code)))
    case RequestTimedOut => s.(error := Some(HealthTimeout(cfg.healthTimeout)))
    case RequestFailed(detail) => s.(error := Some(HealthRequestFailed(detail)))
  }

  /**
   * The health URL probe finds the service running iff the endpoint answers with a status code
   * below 500; a 5xx answer, a timeout or a failed request is recorded as the status's error, and
   * only a 5xx answer marks the service not running.
   */
  lemma ProbeHealthUrlOutcome(status: ServiceStatus, cfg: ServiceConfig, r: HealthResponse)
    ensures var s := ProbeHealthUrl(status, cfg, r);
      && s.checkMethod == HealthUrl && s.name == status.name && s.pid == status.pid
      && (r.Responded? ==> (s.running <==> r.statusCode < 500))
      && (r.Responded? && r.statusCode < 500 ==> s.error == status.error)
      && (r.Responded? && r.statusCode >= 500 ==> s.error == Some(HealthStatus(r.statusCode)))
      && (r.RequestTimedOut? ==> s.running == status.running && s.error == Some(HealthTimeout(cfg.healthTimeout)))
      && (r.RequestFailed? ==> s.running == status.running && s.error == Some(HealthRequestFailed(r.detail)))
  {
  }

  /** The port probe: running iff the connection succeeded. */
  function ProbePort(status: ServiceStatus, cfg: ServiceConfig, r: ConnectOutcome): ServiceStatus {
    var s := status.(checkMethod := Port);
    match r
    case ConnectReturned(errno, listener) =>
      if errno == 0 then s.(running := true, pid := if listener.Some? then listener else s.pid)
      else s.(running := false, error := Some(PortNotListening(cfg.port.GetOr(0))))
    case ConnectRaised(detail) => s.(error := Some(SocketError(detail)))
  }

  /** The PID file probe. */
  function ProbePidFile(status: ServiceStatus, cfg: ServiceConfig, r: PidLookup): ServiceStatus {
    var s := status.(checkMethod := PidFile);
    var path := cfg.pidFile.GetOr("");
    match r
    case NoPidFile => s.(error := Some(PidFileNotFound(path)))
    case NotAnInteger => s.(error := Some(InvalidPidFile(path)))
    case PidInFile(pid, alive) =>
      if alive then s.(running := true, pid := Some(pid)) else s.(error := Some(StalePidFile(pid)))
    case VanishedOnOpen(pid) => s.(error := Some(ProcessNotFound(pid)))
    case VanishedOnRead(pid) => s.(running := true, pid := Some(pid), error := Some(ProcessNotFound(pid)))
  }

  /** The process-name probe: running iff some process has the configured name. */
  function ProbeProcessName(status: ServiceStatus, found: Option<int>): ServiceStatus {
    var s := status.(checkMethod := ProcessName);
    if found.Some? then s.(running := true, pid := found) else s
  }

  function Probe(m: CheckMethod, status: ServiceStatus, cfg: ServiceConfig, obs: Observation): ServiceStatus {
    match m
    case Unknown => status
    case HealthUrl => ProbeHealthUrl(status, cfg, obs.health)
    case Port => ProbePort(status, cfg, obs.connect)
    case PidFile => ProbePidFile(status, cfg, obs.pidLookup)
    case ProcessName => ProbeProcessName(status, obs.processMatch)
  }

  /** Whether probe `m` finds the service running (it does not depend on the incoming status). */
  predicate Reports(m: CheckMethod, cfg: ServiceConfig, obs: Observation) {
    Probe(m, InitialStatus(cfg.name), cfg, obs).running
  }

  /** The configured detection methods, in the order the check tries them. */
  function Configured(cfg: ServiceConfig): (ms: seq<CheckMethod>)
    ensures Unknown !in ms
    ensures ProcessName in ms ==> ms[|ms| - 1] == ProcessName && ProcessName !in ms[..|ms| - 1]
    ensures ms == [] <==> !HasDetectionMethod(cfg)
  {
    (if IsSet(cfg.healthUrl) then [HealthUrl] else [])
    + (if PortSet(cfg.port) then [Port] else [])
    + (if IsSet(cfg.pidFile) then [PidFile] else [])
    + (if IsSet(cfg.processName) then [ProcessName] else [])
  }

  /** Try the methods in order and return at the first one that finds the service running. */
  function RunProbes(ms: seq<CheckMethod>, status: ServiceStatus, cfg: ServiceConfig, obs: Observation): ServiceStatus
    decreases |ms|
  {
    if ms == [] then status
    else
      var s := Probe(ms[0], status, cfg, obs);
      if s.running then s else RunProbes(ms[1..], s, cfg, obs)
  }

  /** The status `ServiceMonitor.check` returns. */
  function CheckStatus(cfg: ServiceConfig, obs: Observation): ServiceStatus {
    RunProbes(Configured(cfg), InitialStatus(cfg.name), cfg, obs)
  }

  /** `ServiceMonitor.check`: one status record threaded through the configured probes. */
  method Check(cfg: ServiceConfig, obs: Observation) returns (status: ServiceStatus)
    ensures status == CheckStatus(cfg, obs)
  {
    // The probes still to try after each stage, and the status the whole check arrives at.
    ghost var afterPidFile := if IsSet(cfg.processName) then [ProcessName] else [];
    ghost var afterPort := if IsSet(cfg.pidFile) then [PidFile] + afterPidFile else afterPidFile;
    ghost var afterHealth := if PortSet(cfg.port) then [Port] + afterPort else afterPort;
    ghost var want := CheckStatus(cfg, obs);
    status := InitialStatus(cfg.name);
    ConfiguredStages(cfg);

    if IsSet(cfg.healthUrl) {
      ghost var before := status;
      status := ProbeHealthUrl(status, cfg, obs.health);
      assert if status.running then want == status else want == RunProbes(afterHealth, status, cfg, obs) by {
        ProbeStage(want, HealthUrl, afterHealth, before, cfg, obs);
      }
      if status.running {
        return;
      }
    }

    if PortSet(cfg.port) {
      ghost var before := status;
      status := ProbePort(status, cfg, obs.connect);
      assert if status.running then want == status else want == RunProbes(afterPort, status, cfg, obs) by {
        ProbeStage(want, Port, afterPort, before, cfg, obs);
      }
      if status.running {
        return;
      }
    }

    if IsSet(cfg.pidFile) {
      ghost var before := status;
      status := ProbePidFile(status, cfg, obs.pidLookup);
      assert if status.running then want == status else want == RunProbes(afterPidFile, status, cfg, obs) by {
        ProbeStage(want, PidFile, afterPidFile, before, cfg, obs);
      }
      if status.running {
        return;
      }
    }

    if IsSet(cfg.processName) {
      ghost var before := status;
      status := ProbeProcessName(status, obs.processMatch);
      assert want == status by {
        ProbeLast(want, ProcessName, before, cfg, obs);
      }
    }
  }

  /** The last probe of a check gives its outcome, whether or not it finds the service. */
  lemma ProbeLast(want: ServiceStatus, m: CheckMethod, status: ServiceStatus, cfg: ServiceConfig, obs: Observation)
    requires want == RunProbes([m], status, cfg, obs)
    ensures want == Probe(m, status, cfg, obs)
  {
    assert [m][1..] == [];
  }

  /** The configured methods, as the check's stages consume them one at a time. */
  lemma ConfiguredStages(cfg: ServiceConfig)
    ensures var afterPidFile := if IsSet(cfg.processName) then [ProcessName] else [];
      var afterPort := if IsSet(cfg.pidFile) then [PidFile] + afterPidFile else afterPidFile;
      var afterHealth := if PortSet(cfg.port) then [Port] + afterPort else afterPort;
      Configured(cfg) == if IsSet(cfg.healthUrl) then [HealthUrl] + afterHealth else afterHealth
  {
    var h, p, f, n := if IsSet(cfg.healthUrl) then [HealthUrl] else [], if PortSet(cfg.port) then [Port] else [],
                      if IsSet(cfg.pidFile) then [PidFile] else [], if IsSet(cfg.processName) then [ProcessName] else [];
    var afterPort := if IsSet(cfg.pidFile) then [PidFile] + n else n;
    var afterHealth := if PortSet(cfg.port) then [Port] + afterPort else afterPort;
    assert afterPort == f + n by {
      if !IsSet(cfg.pidFile) {
        assert [] + n == n;
      }
    }
    assert afterHealth == p + (f + n) by {
      if !PortSet(cfg.port) {
        assert [] + (f + n) == f + n;
      }
    }
    assert h + p + f + n == h + (p + (f + n));
    if !IsSet(cfg.healthUrl) {
      assert [] + afterHealth == afterHealth;
    }
  }

  /**
   * One stage of the check: if the probes `[m] + rest` from `status` arrive at `want`, then probe
   * `m` either finds the service, giving `want`, or leaves `rest` to arrive at it.
   */
  lemma ProbeStage(want: ServiceStatus, m: CheckMethod, rest: seq<CheckMethod>, status: ServiceStatus,
                   cfg: ServiceConfig, obs: Observation)
    requires want == RunProbes([m] + rest, status, cfg, obs)
    ensures var s := Probe(m, status, cfg, obs);
      want == if s.running then s else RunProbes(rest, s, cfg, obs)
  {
    assert ([m] + rest)[1..] == rest;
  }

  // ---------------------------------------------------------------------------------------------
  // Properties of the check
  // ---------------------------------------------------------------------------------------------

  /** A probe run on a not-yet-running status finds it running exactly when `Reports` says so. */
  lemma ProbeRunningIndependent(m: CheckMethod, status: ServiceStatus, cfg: ServiceConfig, obs: Observation)
    requires m != Unknown && !status.running
    ensures Probe(m, status, cfg, obs).running == Reports(m, cfg, obs)
    ensures Probe(m, status, cfg, obs).checkMethod == m
  {
  }

  /** An error, once recorded, is never cleared by a later probe. */
  lemma {:induction false} ErrorSticks(ms: seq<CheckMethod>, status: ServiceStatus, cfg: ServiceConfig, obs: Observation)
    requires status.error.Some?
    ensures RunProbes(ms, status, cfg, obs).error.Some?
    decreases |ms|
  {
    if ms != [] {
      var s := Probe(ms[0], status, cfg, obs);
      assert s.error.Some?;
      if !s.running {
        ErrorSticks(ms[1..], s, cfg, obs);
      }
    }
  }

  /**
   * The probes are tried in order: the result names the first method that found the service
   * running, or the last method tried when none did, and every method before it failed.
   */
  lemma {:induction false} RunProbesOrder(ms: seq<CheckMethod>, status: ServiceStatus, cfg: ServiceConfig, obs: Observation)
    requires ms != [] && Unknown !in ms && !status.running
    ensures var s := RunProbes(ms, status, cfg, obs);
      exists k :: 0 <= k < |ms| && s.checkMethod == ms[k]
                  && (forall j :: 0 <= j < k ==> !Reports(ms[j], cfg, obs))
                  && (s.running <==> Reports(ms[k], cfg, obs))
                  && (!s.running ==> k == |ms| - 1)
    decreases |ms|
  {
    var s := Probe(ms[0], status, cfg, obs);
    ProbeRunningIndependent(ms[0], status, cfg, obs);
    if s.running || |ms| == 1 {
      assert RunProbes(ms, status, cfg, obs) == s by {
        if !s.running {
          assert ms[1..] == [];
        }
      }
    } else {
      RunProbesOrder(ms[1..], s, cfg, obs);
      var k :| 0 <= k < |ms[1..]| && RunProbes(ms[1..], s, cfg, obs).checkMethod == ms[1..][k]
               && (forall j :: 0 <= j < k ==> !Reports(ms[1..][j], cfg, obs))
               && (RunProbes(ms[1..], s, cfg, obs).running <==> Reports(ms[1..][k], cfg, obs))
               && (!RunProbes(ms[1..], s, cfg, obs).running ==> k == |ms[1..]| - 1);
      assert forall j :: 1 <= j < k + 1 ==> ms[j] == ms[1..][j - 1];
    }
  }

  /**
   * `check` tries health URL, port, PID file and process name in that order, stops at the first
   * that finds the service running, and otherwise reports the last method tried; with no method
   * configured it reports a stopped service checked by "unknown".
   */
  lemma CheckOrder(cfg: ServiceConfig, obs: Observation)
    ensures Configured(cfg) == [] ==> CheckStatus(cfg, obs) == InitialStatus(cfg.name)
    ensures var ms, s := Configured(cfg), CheckStatus(cfg, obs);
      ms != [] ==>
        exists k :: 0 <= k < |ms| && s.checkMethod == ms[k]
                    && (forall j :: 0 <= j < k ==> !Reports(ms[j], cfg, obs))
                    && (s.running <==> Reports(ms[k], cfg, obs))
                    && (!s.running ==> k == |ms| - 1)
  {
    if Configured(cfg) != [] {
      RunProbesOrder(Configured(cfg), InitialStatus(cfg.name), cfg, obs);
    }
  }

  /**
   * A check is healthy exactly when the first configured probe finds the service healthy: every
   * probe but the process-name one records an error when it fails, and no later probe clears it,
   * so a fallback probe can report the service running but never healthy.
   */
  lemma CheckHealthyOnlyFromFirstProbe(cfg: ServiceConfig, obs: Observation)
    ensures CheckStatus(cfg, obs).Healthy() <==>
              Configured(cfg) != [] && Probe(Configured(cfg)[0], InitialStatus(cfg.name), cfg, obs).Healthy()
    ensures Configured(cfg) != [] && CheckStatus(cfg, obs).running && !Reports(Configured(cfg)[0], cfg, obs) ==>
              !CheckStatus(cfg, obs).Healthy()
  {
    var ms := Configured(cfg);
    var init := InitialStatus(cfg.name);
    assert CheckStatus(cfg, obs) == RunProbes(ms, init, cfg, obs);
    if ms != [] {
      var s := Probe(ms[0], init, cfg, obs);
      if !s.running {
        assert RunProbes(ms, init, cfg, obs) == RunProbes(ms[1..], s, cfg, obs);
        if ms[0] == ProcessName {
          assert ms[1..] == [];
        } else {
          FailedProbeRecordsError(ms[0], init, cfg, obs);
          ErrorSticks(ms[1..], s, cfg, obs);
        }
      }
    }
  }

  /** Every probe but the process-name one records an error when it does not find the service. */
  lemma FailedProbeRecordsError(m: CheckMethod, status: ServiceStatus, cfg: ServiceConfig, obs: Observation)
    requires m != Unknown && m != ProcessName
    requires !Probe(m, status, cfg, obs).running
    ensures Probe(m, status, cfg, obs).error.Some?
  {
  }

  // ---------------------------------------------------------------------------------------------
  // Service control
  // ---------------------------------------------------------------------------------------------

  datatype Action = StartAction | StopAction | RestartAction

  /** A shell command line handed to the executor, with the action it performs. */
  datatype Command = Command(action: Action, line: string)

  /** What running a command did: its exit status, a timeout, or another error. */
  datatype ExecResult = Exited(code: int, stderr: string) | ExecTimedOut | ExecRaised(detail: string)

  predicate Succeeds(r: ExecResult) {
    r.Exited? && r.code == 0
  }

  datatype ControlMessage =
    | WouldExecute(line: string)                  // dry run
    | ActionSucceeded(action: Action)
    | ActionFailed(action: Action, stderr: string)
    | ActionTimedOut(action: Action)
    | ActionError(action: Action, detail: string)
    | NoStartCommand
    | NoStopCommand
    | StopFailed(cause: ControlMessage)

  /** The `(success, message)` pair of the controller, and the commands the executor received. */
  datatype ControlResult = ControlResult(ok: bool, message: ControlMessage, executed: seq<Command>)

  /** `ServiceController._run_command`: simulated in dry run, else successful iff it exits with 0. */
  function RunCommand(line: string, action: Action, dryRun: bool, exec: Command -> ExecResult): (r: ControlResult)
    ensures dryRun ==> r == ControlResult(true, WouldExecute(line), [])
    ensures !dryRun ==> r.executed == [Command(action, line)] && (r.ok <==> Succeeds(exec(Command(action, line))))
  {
    if dryRun then ControlResult(true, WouldExecute(line), [])
    else
      var c := Command(action, line);
      match exec(c)
      case Exited(code, stderr) =>
        if code == 0 then ControlResult(true, ActionSucceeded(action), [c])
        else ControlResult(false, ActionFailed(action, stderr), [c])
      case ExecTimedOut => ControlResult(false, ActionTimedOut(action), [c])
      case ExecRaised(detail) => ControlResult(false, ActionError(action, detail), [c])
  }

  /** The command `start` runs: the start command, falling back to the restart command. */
  function StartLine(cfg: ServiceConfig): Option<string> {
    if IsSet(cfg.startCommand) then cfg.startCommand else cfg.restartCommand
  }

  /** `ServiceController.start`. */
  function Start(cfg: ServiceConfig, dryRun: bool, exec: Command -> ExecResult): ControlResult {
    var line := StartLine(cfg);
    if !IsSet(line) then ControlResult(false, NoStartCommand, [])
    else RunCommand(line.value, StartAction, dryRun, exec)
  }

  /**
   * `start` runs the start command, or else the restart command, and with neither fails with
   * "no start command" without running anything.
   */
  lemma StartOutcome(cfg: ServiceConfig, dryRun: bool, exec: Command -> ExecResult)
    ensures var r := Start(cfg, dryRun, exec);
      && (r.message == NoStartCommand <==> !IsSet(cfg.startCommand) && !IsSet(cfg.restartCommand))
      && (r.message == NoStartCommand ==> !r.ok && r.executed == [])
      && (IsSet(cfg.startCommand) ==> r.executed <= [Command(StartAction, cfg.startCommand.value)])
      && (!IsSet(cfg.startCommand) && IsSet(cfg.restartCommand) ==>
            r.executed <= [Command(StartAction, cfg.restartCommand.value)])
      && (dryRun ==> r.executed == [] && (r.ok <==> IsSet(cfg.startCommand) || IsSet(cfg.restartCommand)))
      && (!dryRun ==> (r.ok <==> |r.executed| == 1 && Succeeds(exec(r.executed[0]))))
  {
  }

  /** `ServiceController.stop`. */
  function Stop(cfg: ServiceConfig, dryRun: bool, exec: Command -> ExecResult): ControlResult {
    if !IsSet(cfg.stopCommand) then ControlResult(false, NoStopCommand, [])
    else RunCommand(cfg.stopCommand.value, StopAction, dryRun, exec)
  }

  /** `stop` fails without running anything when no stop command is set, and otherwise runs it. */
  lemma StopOutcome(cfg: ServiceConfig, dryRun: bool, exec: Command -> ExecResult)
    ensures var r := Stop(cfg, dryRun, exec);
      && (!IsSet(cfg.stopCommand) ==> r == ControlResult(false, NoStopCommand, []))
      && (IsSet(cfg.stopCommand) ==> r.executed <= [Command(StopAction, cfg.stopCommand.value)])
      && (dryRun ==> r.executed == [] && (r.ok <==> IsSet(cfg.stopCommand)))
      && (!dryRun ==> (r.ok <==> |r.executed| == 1 && Succeeds(exec(r.executed[0]))))
  {
  }

  /**
   * `ServiceController.restart`: the restart command when one is set; otherwise stop (when a stop
   * command is set) and then start, giving up after a failed stop.
   */
  function Restart(cfg: ServiceConfig, dryRun: bool, exec: Command -> ExecResult): ControlResult {
    if IsSet(cfg.restartCommand) then RunCommand(cfg.restartCommand.value, RestartAction, dryRun, exec)
    else if IsSet(cfg.stopCommand) then
      var stopped := Stop(cfg, dryRun, exec);
      if !stopped.ok then ControlResult(false, StopFailed(stopped.message), stopped.executed)
      else
        var started := Start(cfg, dryRun, exec);
        ControlResult(started.ok, started.message, stopped.executed + started.executed)
    else Start(cfg, dryRun, exec)
  }

  /** Which commands `restart` runs, in which order. */
  lemma RestartCommands(cfg: ServiceConfig, dryRun: bool, exec: Command -> ExecResult)
    ensures var r := Restart(cfg, dryRun, exec);
      // a set restart command is the only command run
      && (IsSet(cfg.restartCommand) ==> r.executed <= [Command(RestartAction, cfg.restartCommand.value)])
      // otherwise the stop command, if set, runs first, and its failure ends the restart
      && (!IsSet(cfg.restartCommand) && IsSet(cfg.stopCommand) && !dryRun ==>
            |r.executed| >= 1 && r.executed[0] == Command(StopAction, cfg.stopCommand.value))
      && (!IsSet(cfg.restartCommand) && IsSet(cfg.stopCommand) && !dryRun
          && !Succeeds(exec(Command(StopAction, cfg.stopCommand.value))) ==>
            !r.ok && r.message.StopFailed? && r.executed == [Command(StopAction, cfg.stopCommand.value)])
      && (!IsSet(cfg.restartCommand) ==> forall c :: c in r.executed ==> c.action != RestartAction)
      && (!IsSet(cfg.restartCommand) && !IsSet(cfg.stopCommand) ==>
            forall c :: c in r.executed ==> c.action == StartAction)
  {
    StopOutcome(cfg, dryRun, exec);
    StartOutcome(cfg, dryRun, exec);
  }

  /**
   * When `restart` succeeds: a dry run runs nothing and succeeds iff there is a command to start
   * the service with; a live restart succeeds iff it ran something, everything it ran succeeded
   * and it did not end with the stop command. Without a restart or start command it always fails.
   */
  lemma RestartSuccess(cfg: ServiceConfig, dryRun: bool, exec: Command -> ExecResult)
    ensures var r := Restart(cfg, dryRun, exec);
      && (!IsSet(cfg.restartCommand) && !IsSet(cfg.startCommand) ==> !r.ok)
      && (dryRun ==> r.executed == [] && (r.ok <==> IsSet(cfg.restartCommand) || IsSet(cfg.startCommand)))
      && (!dryRun ==>
            (r.ok <==> |r.executed| > 0 && (forall c :: c in r.executed ==> Succeeds(exec(c)))
                       && r.executed[|r.executed| - 1].action != StopAction))
  {
    StopOutcome(cfg, dryRun, exec);
    StartOutcome(cfg, dryRun, exec);
  }

  /**
   * With a stop command but no usable start or restart command, a live restart stops the service
   * and then reports that there is no start command, leaving the service stopped.
   */
  lemma RestartStopsWithoutStarting(cfg: ServiceConfig, exec: Command -> ExecResult)
    requires !IsSet(cfg.restartCommand) && !IsSet(cfg.startCommand) && IsSet(cfg.stopCommand)
    requires Succeeds(exec(Command(StopAction, cfg.stopCommand.value)))
    ensures Restart(cfg, false, exec) == ControlResult(false, NoStartCommand, [Command(StopAction, cfg.stopCommand.value)])
  {
  }
}
