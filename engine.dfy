/**
 * What one watchdog step does to a service's record, which events it notifies and which commands
 * it runs. These functions specify the methods of `Watchdog.ServiceWatchdog`, which perform the
 * same steps by updating the record in place; the lemmas here state what the steps promise.
 */
module Engine {
  import opened Wrappers
  import opened Config
  import opened Monitor
  import opened Notifiers
  import opened ServiceStates

  /** One step on one service: its new record, the events notified and the commands executed, in order. */
  datatype Step = Step(state: ServiceState, events: seq<NotificationEvent>, commands: seq<Command>)

  // ---------------------------------------------------------------------------------------------
  // Failure, recovery, restart
  // ---------------------------------------------------------------------------------------------

  /** `handle_failure`: count the failure; at the threshold alert once and schedule a restart once. */
  function OnFailure(st: ServiceState, cfg: ServiceConfig, status: ServiceStatus, now: int): Step {
    var failures := st.consecutiveFailures + 1;
    var counted := st.(consecutiveFailures := failures);
    if failures < cfg.failureThreshold then Step(counted, [], [])
    else
      var events :=
        if st.alerted then []
        else [NotificationEvent(FAILURE, cfg.name, FailedChecks(failures, cfg.restartDelay), Some(status), now)];
      var alerted := counted.(alerted := true);
      var scheduled :=
        if alerted.pendingRestartAt.None? then alerted.(pendingRestartAt := Some(now + cfg.restartDelay)) else alerted;
      Step(scheduled, events, [])
  }

  /** Below the threshold a failure only counts. */
  lemma OnFailureBelowThreshold(st: ServiceState, cfg: ServiceConfig, status: ServiceStatus, now: int)
    requires st.consecutiveFailures + 1 < cfg.failureThreshold
    ensures OnFailure(st, cfg, status, now) == Step(st.(consecutiveFailures := st.consecutiveFailures + 1), [], [])
  {
  }

  /**
   * A failure raises the count by one and touches nothing of the restart budget; at the threshold
   * the FAILURE event goes out only if none was sent in this streak, the service is then alerted,
   * and a restart is scheduled only if none is pending, so a schedule is never pushed back.
   */
  lemma OnFailureAtThreshold(st: ServiceState, cfg: ServiceConfig, status: ServiceStatus, now: int)
    ensures var r := OnFailure(st, cfg, status, now);
      && r.state.consecutiveFailures == st.consecutiveFailures + 1
      && r.state.restartCount == st.restartCount && r.state.restartWindowStart == st.restartWindowStart
      && r.state.lastCheck == st.lastCheck && r.state.lastStatus == st.lastStatus && r.state.name == st.name
      && r.commands == []
      && (|r.events| == 1 <==> !st.alerted && st.consecutiveFailures + 1 >= cfg.failureThreshold)
      && |r.events| <= 1
      && (forall e :: e in r.events ==> e.eventType == FAILURE && e.serviceName == cfg.name && e.status == Some(status))
      && r.state.alerted == (st.alerted || st.consecutiveFailures + 1 >= cfg.failureThreshold)
      && (st.pendingRestartAt.Some? ==> r.state.pendingRestartAt == st.pendingRestartAt)
      && (st.pendingRestartAt.None? && st.consecutiveFailures + 1 >= cfg.failureThreshold ==>
            r.state.pendingRestartAt == Some(now + cfg.restartDelay))
      && (st.consecutiveFailures + 1 < cfg.failureThreshold ==> r.state.pendingRestartAt == st.pendingRestartAt)
  {
  }

  /** A run of failed checks, each with its status and time. */
  function FailureStreak(st: ServiceState, cfg: ServiceConfig, checks: seq<(ServiceStatus, int)>): Step
    decreases |checks|
  {
    if checks == [] then Step(st, [], [])
    else
      var prev := FailureStreak(st, cfg, checks[..|checks| - 1]);
      var last := checks[|checks| - 1];
      var step := OnFailure(prev.state, cfg, last.0, last.1);
      Step(step.state, prev.events + step.events, [])
  }

  /**
   * One FAILURE event per streak: over any run of failures at most one event is sent, exactly one
   * when the service was not alerted and the count reaches the threshold, and a pending restart
   * stays as it was scheduled.
   */
  lemma {:induction false} FailureStreakAlertsOnce(st: ServiceState, cfg: ServiceConfig, checks: seq<(ServiceStatus, int)>)
    ensures var r := FailureStreak(st, cfg, checks);
      && r.state.consecutiveFailures == st.consecutiveFailures + |checks|
      && (|r.events| == 1 <==>
            !st.alerted && |checks| > 0 && st.consecutiveFailures + |checks| >= cfg.failureThreshold)
      && |r.events| <= 1
      && (forall e :: e in r.events ==> e.eventType == FAILURE)
      && r.state.alerted == (st.alerted || (|checks| > 0 && st.consecutiveFailures + |checks| >= cfg.failureThreshold))
      && (st.pendingRestartAt.Some? ==> r.state.pendingRestartAt == st.pendingRestartAt)
      && r.state.restartCount == st.restartCount
    decreases |checks|
  {
    if checks != [] {
      var prefix := checks[..|checks| - 1];
      FailureStreakAlertsOnce(st, cfg, prefix);
      var prev := FailureStreak(st, cfg, prefix);
      var last := checks[|checks| - 1];
      OnFailureAtThreshold(prev.state, cfg, last.0, last.1);
    }
  }

  /** `handle_recovery`: notify RECOVERY if anything had gone wrong, then clear the failure streak. */
  function OnRecovery(st: ServiceState, cfg: ServiceConfig, status: ServiceStatus, now: int): Step {
    var events :=
      if st.consecutiveFailures > 0 || st.alerted
      then [NotificationEvent(RECOVERY, cfg.name, RunningNormally, Some(status), now)]
      else [];
    Step(st.(consecutiveFailures := 0, alerted := false, pendingRestartAt := None), events, [])
  }

  /**
   * Recovery always clears the count, the alert and any pending restart and leaves the restart
   * budget alone; it notifies RECOVERY exactly when there had been a failure or an alert, which
   * includes failures that stayed below the threshold and were never announced.
   */
  lemma OnRecoveryResets(st: ServiceState, cfg: ServiceConfig, status: ServiceStatus, now: int)
    ensures var r := OnRecovery(st, cfg, status, now);
      && r.state == st.(consecutiveFailures := 0, alerted := false, pendingRestartAt := None)
      && r.commands == []
      && (|r.events| == 1 <==> st.consecutiveFailures > 0 || st.alerted)
      && |r.events| <= 1
      && (forall e :: e in r.events ==> e.eventType == RECOVERY && e.status == Some(status))
  {
  }

  /** A second recovery in a row notifies nothing and changes nothing. */
  lemma OnRecoveryIdempotent(st: ServiceState, cfg: ServiceConfig, s1: ServiceStatus, s2: ServiceStatus, n1: int, n2: int)
    ensures var first := OnRecovery(st, cfg, s1, n1);
      var second := OnRecovery(first.state, cfg, s2, n2);
      second.state == first.state && second.events == []
  {
  }

  /** Whether `attempt_restart` at `now` starts a new restart window. */
  predicate WindowExpired(st: ServiceState, cfg: ServiceConfig, now: int) {
    st.restartWindowStart.None? || now - st.restartWindowStart.value > cfg.restartWindow
  }

  /** The record after the window check of `attempt_restart`. */
  function InWindow(st: ServiceState, cfg: ServiceConfig, now: int): ServiceState {
    if WindowExpired(st, cfg, now) then st.(restartWindowStart := Some(now), restartCount := 0) else st
  }

  /** `attempt_restart`: refuse past the budget, otherwise restart through the controller. */
  function AttemptRestart(st: ServiceState, cfg: ServiceConfig, now: int, dryRun: bool, exec: Command -> ExecResult): Step {
    var windowed := InWindow(st, cfg, now);
    if windowed.restartCount >= cfg.maxRestarts then
      Step(windowed.(pendingRestartAt := None),
           [NotificationEvent(RESTART_FAILED, cfg.name, ExceededMaxRestarts(cfg.maxRestarts), None, now)], [])
    else
      var outcome := Restart(cfg, dryRun, exec);
      var counted := windowed.(restartCount := windowed.restartCount + 1, pendingRestartAt := None);
      if outcome.ok then
        Step(counted, [NotificationEvent(RESTART, cfg.name, Restarted(counted.restartCount), None, now)], outcome.executed)
      else
        Step(counted.(pendingRestartAt := Some(now + cfg.restartDelay)),
             [NotificationEvent(RESTART_FAILED, cfg.name,
                                RestartAttemptFailed(outcome.message, counted.restartCount, cfg.maxRestarts), None, now)],
             outcome.executed)
  }

  /**
   * A refused restart (budget spent in the current window) runs no command, keeps the count,
   * cancels the pending restart and notifies one RESTART_FAILED event.
   */
  lemma AttemptRestartRefused(st: ServiceState, cfg: ServiceConfig, now: int, dryRun: bool, exec: Command -> ExecResult)
    requires InWindow(st, cfg, now).restartCount >= cfg.maxRestarts
    ensures var r := AttemptRestart(st, cfg, now, dryRun, exec);
      && r.commands == []
      && r.state == InWindow(st, cfg, now).(pendingRestartAt := None)
      && |r.events| == 1 && r.events[0].eventType == RESTART_FAILED
      && r.events[0].message == ExceededMaxRestarts(cfg.maxRestarts)
  {
  }

  /**
   * A permitted restart adds one to the count, runs the controller's commands and notifies one
   * event: RESTART with nothing pending on success, RESTART_FAILED with a retry after the
   * restart delay on failure. The window starts anew exactly when it had none or it has expired.
   */
  lemma AttemptRestartPermitted(st: ServiceState, cfg: ServiceConfig, now: int, dryRun: bool, exec: Command -> ExecResult)
    requires InWindow(st, cfg, now).restartCount < cfg.maxRestarts
    ensures var r, outcome := AttemptRestart(st, cfg, now, dryRun, exec), Restart(cfg, dryRun, exec);
      && r.state.restartCount == InWindow(st, cfg, now).restartCount + 1
      && r.state.restartWindowStart == (if WindowExpired(st, cfg, now) then Some(now) else st.restartWindowStart)
      && r.commands == outcome.executed
      && |r.events| == 1
      && (outcome.ok ==> r.events[0].eventType == RESTART && r.state.pendingRestartAt == None)
      && (!outcome.ok ==>
            r.events[0].eventType == RESTART_FAILED && r.state.pendingRestartAt == Some(now + cfg.restartDelay))
      && r.state.consecutiveFailures == st.consecutiveFailures && r.state.alerted == st.alerted
  {
  }

  /**
   * A refused restart cancels the pending restart but not the failure streak, so the next failed
   * check at or above the threshold schedules a new restart after the restart delay, this time
   * without a FAILURE event when the service was already alerted.
   */
  lemma RefusedRestartIsRescheduled(st: ServiceState, cfg: ServiceConfig, now: int, dryRun: bool,
                                    exec: Command -> ExecResult, status: ServiceStatus, later: int)
    requires InWindow(st, cfg, now).restartCount >= cfg.maxRestarts
    requires st.consecutiveFailures + 1 >= cfg.failureThreshold
    ensures var refused := AttemptRestart(st, cfg, now, dryRun, exec).state;
      var next := OnFailure(refused, cfg, status, later);
      && refused.pendingRestartAt.None?
      && next.state.pendingRestartAt == Some(later + cfg.restartDelay)
      && (st.alerted ==> next.events == [])
  {
  }

  function Max(a: int, b: int): int {
    if a < b then b else a
  }

  /** The restart budget: the count never exceeds `max_restarts` (or 0 when that is negative). */
  predicate WithinBudget(st: ServiceState, cfg: ServiceConfig) {
    0 <= st.restartCount <= Max(cfg.maxRestarts, 0)
  }

  /** Restart attempts keep a service within its budget. */
  lemma AttemptRestartKeepsBudget(st: ServiceState, cfg: ServiceConfig, now: int, dryRun: bool, exec: Command -> ExecResult)
    requires WithinBudget(st, cfg)
    ensures WithinBudget(AttemptRestart(st, cfg, now, dryRun, exec).state, cfg)
  {
  }

  /** A sequence of restart attempts, each at its own time. */
  function RestartAttempts(st: ServiceState, cfg: ServiceConfig, times: seq<int>, dryRun: bool, exec: Command -> ExecResult): Step
    decreases |times|
  {
    if times == [] then Step(st, [], [])
    else
      var prev := RestartAttempts(st, cfg, times[..|times| - 1], dryRun, exec);
      var step := AttemptRestart(prev.state, cfg, times[|times| - 1], dryRun, exec);
      Step(step.state, prev.events + step.events, prev.commands + step.commands)
  }

  /** Any run of restart attempts keeps the budget. */
  lemma {:induction false} RestartAttemptsKeepBudget(st: ServiceState, cfg: ServiceConfig, times: seq<int>, dryRun: bool,
                                                     exec: Command -> ExecResult)
    requires WithinBudget(st, cfg)
    ensures WithinBudget(RestartAttempts(st, cfg, times, dryRun, exec).state, cfg)
    decreases |times|
  {
    if times != [] {
      RestartAttemptsKeepBudget(st, cfg, times[..|times| - 1], dryRun, exec);
      var prev := RestartAttempts(st, cfg, times[..|times| - 1], dryRun, exec);
      AttemptRestartKeepsBudget(prev.state, cfg, times[|times| - 1], dryRun, exec);
    }
  }

  /** Whether the attempt at `now` is allowed to call the controller. */
  predicate Allowed(st: ServiceState, cfg: ServiceConfig, now: int) {
    InWindow(st, cfg, now).restartCount < cfg.maxRestarts
  }

  /** The number of attempts among `times` that the controller was asked to perform. */
  function Permitted(st: ServiceState, cfg: ServiceConfig, times: seq<int>, dryRun: bool, exec: Command -> ExecResult): nat
    decreases |times|
  {
    if times == [] then 0
    else
      var prev := RestartAttempts(st, cfg, times[..|times| - 1], dryRun, exec);
      Permitted(st, cfg, times[..|times| - 1], dryRun, exec) + (if Allowed(prev.state, cfg, times[|times| - 1]) then 1 else 0)
  }

  /** Each attempt adds one to the count of its window exactly when it is allowed. */
  lemma AttemptRestartCount(st: ServiceState, cfg: ServiceConfig, now: int, dryRun: bool, exec: Command -> ExecResult)
    ensures AttemptRestart(st, cfg, now, dryRun, exec).state.restartCount
            == InWindow(st, cfg, now).restartCount + (if Allowed(st, cfg, now) then 1 else 0)
  {
  }

  /**
   * Within one restart window at most `max_restarts` restarts are attempted: when the window does
   * not expire during a run of attempts, the count grows by exactly the number of attempts allowed,
   * and that number is bounded by the budget left at the start.
   */
  lemma {:induction false} RestartsWithinWindow(st: ServiceState, cfg: ServiceConfig, times: seq<int>, dryRun: bool,
                                                exec: Command -> ExecResult)
    requires WithinBudget(st, cfg)
    requires forall i :: 0 <= i < |times| ==>
               !WindowExpired(RestartAttempts(st, cfg, times[..i], dryRun, exec).state, cfg, times[i])
    ensures RestartAttempts(st, cfg, times, dryRun, exec).state.restartCount
            == st.restartCount + Permitted(st, cfg, times, dryRun, exec)
    ensures st.restartCount + Permitted(st, cfg, times, dryRun, exec) <= Max(cfg.maxRestarts, 0)
    decreases |times|
  {
    RestartAttemptsKeepBudget(st, cfg, times, dryRun, exec);
    if times != [] {
      var prefix := times[..|times| - 1];
      forall i | 0 <= i < |prefix|
        ensures !WindowExpired(RestartAttempts(st, cfg, prefix[..i], dryRun, exec).state, cfg, prefix[i])
      {
        assert prefix[..i] == times[..i];
      }
      RestartsWithinWindow(st, cfg, prefix, dryRun, exec);
      var prev := RestartAttempts(st, cfg, prefix, dryRun, exec);
      var now := times[|times| - 1];
      assert !WindowExpired(prev.state, cfg, now) by {
        assert times[..|times| - 1] == prefix;
      }
      AttemptRestartCount(prev.state, cfg, now, dryRun, exec);
    }
  }

  // ---------------------------------------------------------------------------------------------
  // One cycle of `run_once`
  // ---------------------------------------------------------------------------------------------

  /** Python's truthiness of an optional timestamp: absent and 0 are both false. */
  predicate Truthy(t: Option<int>) {
    t.Some? && t.value != 0
  }

  predicate RestartDue(st: ServiceState, now: int) {
    Truthy(st.pendingRestartAt) && now >= st.pendingRestartAt.value
  }

  predicate CheckDue(st: ServiceState, cfg: ServiceConfig, now: int) {
    !Truthy(st.lastCheck) || now - st.lastCheck.value >= cfg.checkInterval
  }

  /** `check_service` on an existing record: remember the time and the status of the check. */
  function Checked(st: ServiceState, status: ServiceStatus, now: int): ServiceState {
    st.(lastCheck := Some(now), lastStatus := Some(status))
  }

  /** The body of `run_once` for one enabled service whose record is `st`. */
  function ServiceCycle(st: ServiceState, cfg: ServiceConfig, now: int, obs: Observation, dryRun: bool,
                        exec: Command -> ExecResult): Step
  {
    if RestartDue(st, now) then AttemptRestart(st, cfg, now, dryRun, exec)
    else if !CheckDue(st, cfg, now) then Step(st, [], [])
    else
      var status := CheckStatus(cfg, obs);
      var checked := Checked(st, status, now);
      if status.Healthy() then OnRecovery(checked, cfg, status, now) else OnFailure(checked, cfg, status, now)
  }

  lemma CycleRestarts(st: ServiceState, cfg: ServiceConfig, now: int, obs: Observation, dryRun: bool,
                      exec: Command -> ExecResult)
    requires RestartDue(st, now)
    ensures ServiceCycle(st, cfg, now, obs, dryRun, exec) == AttemptRestart(st, cfg, now, dryRun, exec)
  {
  }

  lemma CycleWaits(st: ServiceState, cfg: ServiceConfig, now: int, obs: Observation, dryRun: bool,
                   exec: Command -> ExecResult)
    requires !RestartDue(st, now) && !CheckDue(st, cfg, now)
    ensures ServiceCycle(st, cfg, now, obs, dryRun, exec) == Step(st, [], [])
  {
  }

  lemma CycleChecks(st: ServiceState, cfg: ServiceConfig, now: int, obs: Observation, dryRun: bool,
                    exec: Command -> ExecResult)
    requires !RestartDue(st, now) && CheckDue(st, cfg, now)
    ensures var status := CheckStatus(cfg, obs);
      ServiceCycle(st, cfg, now, obs, dryRun, exec)
      == if status.Healthy() then OnRecovery(Checked(st, status, now), cfg, status, now)
         else OnFailure(Checked(st, status, now), cfg, status, now)
  {
  }

  /**
   * A due restart replaces the check of that cycle; otherwise nothing happens before the check
   * interval has elapsed; otherwise the service is checked, and a healthy check counts as a
   * recovery and any other as a failure.
   */
  lemma ServiceCycleCases(st: ServiceState, cfg: ServiceConfig, now: int, obs: Observation, dryRun: bool,
                          exec: Command -> ExecResult)
    ensures var r := ServiceCycle(st, cfg, now, obs, dryRun, exec);
      && (RestartDue(st, now) ==> r.state.lastCheck == st.lastCheck && r.state.lastStatus == st.lastStatus)
      && (!RestartDue(st, now) && !CheckDue(st, cfg, now) ==> r == Step(st, [], []))
      && (!RestartDue(st, now) && CheckDue(st, cfg, now) ==>
            r.state.lastCheck == Some(now) && r.state.lastStatus == Some(CheckStatus(cfg, obs)) && r.commands == []
            && (CheckStatus(cfg, obs).Healthy() ==> r.state.consecutiveFailures == 0 && !r.state.alerted)
            && (!CheckStatus(cfg, obs).Healthy() ==> r.state.consecutiveFailures == st.consecutiveFailures + 1))
      && r.state.name == st.name
  {
  }

  /** Every step of a cycle keeps the restart budget. */
  lemma ServiceCycleKeepsBudget(st: ServiceState, cfg: ServiceConfig, now: int, obs: Observation, dryRun: bool,
                                exec: Command -> ExecResult)
    requires WithinBudget(st, cfg)
    ensures WithinBudget(ServiceCycle(st, cfg, now, obs, dryRun, exec).state, cfg)
  {
    if RestartDue(st, now) {
      AttemptRestartKeepsBudget(st, cfg, now, dryRun, exec);
    }
  }

  // ---------------------------------------------------------------------------------------------
  // One round of `run_once` over every configured service
  // ---------------------------------------------------------------------------------------------

  /** The records, the events and the commands after `run_once` has gone through some services. */
  datatype Round = Round(services: map<string, ServiceState>, events: seq<NotificationEvent>, commands: seq<Command>)

  /** The record `run_once` works on: the stored one, or a fresh one it stores first. */
  function RecordFor(services: map<string, ServiceState>, name: string): ServiceState {
    if name in services then services[name] else Fresh(name)
  }

  /**
   * `run_once` over `cfgs` in order, skipping disabled services, starting from the records,
   * events and commands of `start`; `observe` is what the probes see.
   */
  function RunRound(start: Round, cfgs: seq<ServiceConfig>, now: int,
                    observe: ServiceConfig -> Observation, dryRun: bool, exec: Command -> ExecResult): Round
    decreases |cfgs|
  {
    if cfgs == [] then start
    else
      var prev := RunRound(start, cfgs[..|cfgs| - 1], now, observe, dryRun, exec);
      NextRound(prev, cfgs[|cfgs| - 1], now, observe(cfgs[|cfgs| - 1]), dryRun, exec)
  }

  /** The round after `run_once` has also gone through `cfg`. */
  function NextRound(prev: Round, cfg: ServiceConfig, now: int, obs: Observation, dryRun: bool,
                     exec: Command -> ExecResult): Round
  {
    if !cfg.enabled then prev
    else
      var step := ServiceCycle(RecordFor(prev.services, cfg.name), cfg, now, obs, dryRun, exec);
      Round(prev.services[cfg.name := step.state], prev.events + step.events, prev.commands + step.commands)
  }

  lemma RunRoundPrefix(start: Round, cfgs: seq<ServiceConfig>, i: nat, now: int,
                       observe: ServiceConfig -> Observation, dryRun: bool, exec: Command -> ExecResult)
    requires i < |cfgs|
    ensures RunRound(start, cfgs[..i + 1], now, observe, dryRun, exec)
            == NextRound(RunRound(start, cfgs[..i], now, observe, dryRun, exec), cfgs[i], now, observe(cfgs[i]), dryRun, exec)
  {
    assert cfgs[..i + 1][..i] == cfgs[..i];
  }

  /** A cycle keeps the record's name. */
  lemma ServiceCycleKeepsName(st: ServiceState, cfg: ServiceConfig, now: int, obs: Observation, dryRun: bool,
                              exec: Command -> ExecResult)
    ensures ServiceCycle(st, cfg, now, obs, dryRun, exec).state.name == st.name
  {
  }

  /** The names of the enabled services among `cfgs`. */
  function EnabledNames(cfgs: seq<ServiceConfig>): set<string> {
    set i | 0 <= i < |cfgs| && cfgs[i].enabled :: cfgs[i].name
  }

  lemma EnabledNamesPrefix(cfgs: seq<ServiceConfig>, k: nat)
    requires k < |cfgs|
    ensures EnabledNames(cfgs[..k + 1]) == EnabledNames(cfgs[..k]) + (if cfgs[k].enabled then {cfgs[k].name} else {})
  {
    var prefix, longer := cfgs[..k], cfgs[..k + 1];
    forall n | n in EnabledNames(longer)
      ensures n in EnabledNames(prefix) + (if cfgs[k].enabled then {cfgs[k].name} else {})
    {
      var i :| 0 <= i < |longer| && longer[i].enabled && longer[i].name == n;
      if i < k {
        assert prefix[i] == longer[i];
      }
    }
    forall n | n in EnabledNames(prefix)
      ensures n in EnabledNames(longer)
    {
      var i :| 0 <= i < |prefix| && prefix[i].enabled && prefix[i].name == n;
      assert longer[i] == prefix[i];
    }
    if cfgs[k].enabled {
      assert longer[k] == cfgs[k];
    }
  }

  /**
   * A round adds a record for every enabled service that had none, files every record under its
   * own name, and leaves the records of all other services exactly as they were, so disabled
   * services are never touched.
   */
  lemma {:induction false} RunRoundFrame(start: Round, cfgs: seq<ServiceConfig>, now: int,
                                         observe: ServiceConfig -> Observation, dryRun: bool,
                                         exec: Command -> ExecResult, k: nat)
    requires NamesMatch(start.services) && k <= |cfgs|
    ensures var r := RunRound(start, cfgs[..k], now, observe, dryRun, exec);
      && r.services.Keys == start.services.Keys + EnabledNames(cfgs[..k])
      && NamesMatch(r.services)
      && (forall n :: n in start.services && n !in EnabledNames(cfgs[..k]) ==> r.services[n] == start.services[n])
    decreases k
  {
    if k == 0 {
      assert cfgs[..0] == [];
    } else {
      RunRoundFrame(start, cfgs, now, observe, dryRun, exec, k - 1);
      RunRoundPrefix(start, cfgs, k - 1, now, observe, dryRun, exec);
      EnabledNamesPrefix(cfgs, k - 1);
      var cfg := cfgs[k - 1];
      if cfg.enabled {
        var prev := RunRound(start, cfgs[..k - 1], now, observe, dryRun, exec);
        ServiceCycleKeepsName(RecordFor(prev.services, cfg.name), cfg, now, observe(cfg), dryRun, exec);
      }
    }
  }

  /** Service names are unique among the configured services. */
  predicate UniqueNames(cfgs: seq<ServiceConfig>) {
    forall i, j :: 0 <= i < j < |cfgs| ==> cfgs[i].name != cfgs[j].name
  }

  /** Every stored record of a configured service is within that service's restart budget. */
  predicate AllWithinBudget(services: map<string, ServiceState>, cfgs: seq<ServiceConfig>) {
    forall i :: 0 <= i < |cfgs| && cfgs[i].name in services ==> WithinBudget(services[cfgs[i].name], cfgs[i])
  }

  /** With unique service names, a round keeps every configured service within its restart budget. */
  lemma {:induction false} RunRoundKeepsBudget(start: Round, cfgs: seq<ServiceConfig>, now: int,
                                               observe: ServiceConfig -> Observation, dryRun: bool,
                                               exec: Command -> ExecResult, k: nat)
    requires UniqueNames(cfgs) && AllWithinBudget(start.services, cfgs) && k <= |cfgs|
    ensures AllWithinBudget(RunRound(start, cfgs[..k], now, observe, dryRun, exec).services, cfgs)
    decreases k
  {
    if k == 0 {
      assert cfgs[..0] == [];
    } else {
      RunRoundKeepsBudget(start, cfgs, now, observe, dryRun, exec, k - 1);
      RunRoundPrefix(start, cfgs, k - 1, now, observe, dryRun, exec);
      var prev := RunRound(start, cfgs[..k - 1], now, observe, dryRun, exec);
      var cfg := cfgs[k - 1];
      if cfg.enabled {
        var st := RecordFor(prev.services, cfg.name);
        assert WithinBudget(st, cfg);
        ServiceCycleKeepsBudget(st, cfg, now, observe(cfg), dryRun, exec);
      }
    }
  }
}
