/**
 * The watchdog daemon: its records per service, its notifiers, and the methods of one check
 * cycle. Each method updates the records in place as the daemon does and is specified by the
 * matching function of `Engine`. Ghost logs record every event handed to `notify` and every
 * command the executor received.
 */
module Watchdog {
  import opened Wrappers
  import opened Config
  import opened Monitor
  import opened Notifiers
  import opened ServiceStates
  import opened Engine

  /** The records of a new daemon: a fresh one for each configured service. */
  function InitialStates(cfgs: seq<ServiceConfig>): map<string, ServiceState>
    decreases |cfgs|
  {
    if cfgs == [] then map[]
    else
      var last := cfgs[|cfgs| - 1];
      InitialStates(cfgs[..|cfgs| - 1])[last.name := Fresh(last.name)]
  }

  /** A new daemon has exactly one fresh record per configured service name. */
  lemma {:induction false} InitialStatesFresh(cfgs: seq<ServiceConfig>)
    ensures InitialStates(cfgs).Keys == set i | 0 <= i < |cfgs| :: cfgs[i].name
    ensures forall n :: n in InitialStates(cfgs) ==> InitialStates(cfgs)[n] == Fresh(n)
    ensures NamesMatch(InitialStates(cfgs))
    decreases |cfgs|
  {
    if cfgs != [] {
      var prefix := cfgs[..|cfgs| - 1];
      InitialStatesFresh(prefix);
      assert forall i :: 0 <= i < |prefix| ==> prefix[i] == cfgs[i];
      var names := set i | 0 <= i < |cfgs| :: cfgs[i].name;
      var prefixNames := set i | 0 <= i < |prefix| :: prefix[i].name;
      assert names == prefixNames + {cfgs[|cfgs| - 1].name} by {
        forall n | n in names
          ensures n in prefixNames + {cfgs[|cfgs| - 1].name}
        {
          var i :| 0 <= i < |cfgs| && cfgs[i].name == n;
          if i < |prefix| {
            assert prefix[i].name == n;
          }
        }
      }
    }
  }

  /** The notifiers `__init__` creates: one per configuration of a known type, in order. */
  function Instantiate(factory: NotifierFactory, cfgs: seq<NotifierConfig>): seq<Notifier>
    reads factory
    decreases |cfgs|
  {
    if cfgs == [] then []
    else
      var prev := Instantiate(factory, cfgs[..|cfgs| - 1]);
      match factory.Create(cfgs[|cfgs| - 1])
      case Ok(n) => prev + [n]
      case Err(_) => prev
  }

  /** Creating the notifiers yields at most one notifier per configuration. */
  lemma {:induction false} InstantiateLength(factory: NotifierFactory, cfgs: seq<NotifierConfig>)
    ensures |Instantiate(factory, cfgs)| <= |cfgs|
    decreases |cfgs|
  {
    if cfgs != [] {
      InstantiateLength(factory, cfgs[..|cfgs| - 1]);
    }
  }

  /** Every notifier created comes from a configuration whose type is registered, as that kind. */
  lemma {:induction false} InstantiateSkipsUnknown(factory: NotifierFactory, cfgs: seq<NotifierConfig>)
    ensures forall n :: n in Instantiate(factory, cfgs) ==>
              n.config in cfgs && Lower(n.config.notifierType) in factory.registry
              && n.kind == factory.registry[Lower(n.config.notifierType)]
    decreases |cfgs|
  {
    if cfgs != [] {
      var prefix := cfgs[..|cfgs| - 1];
      InstantiateSkipsUnknown(factory, prefix);
      assert forall c :: c in prefix ==> c in cfgs;
    }
  }

  /** When every configured type is registered, there is one notifier per configuration, in order. */
  lemma {:induction false} InstantiateAllKnown(factory: NotifierFactory, cfgs: seq<NotifierConfig>)
    requires forall i :: 0 <= i < |cfgs| ==> Lower(cfgs[i].notifierType) in factory.registry
    ensures |Instantiate(factory, cfgs)| == |cfgs|
    ensures forall i :: 0 <= i < |cfgs| ==> Instantiate(factory, cfgs)[i].config == cfgs[i]
    decreases |cfgs|
  {
    if cfgs != [] {
      var prefix := cfgs[..|cfgs| - 1];
      assert forall i :: 0 <= i < |prefix| ==> prefix[i] == cfgs[i];
      InstantiateAllKnown(factory, prefix);
    }
  }

  /** `ServiceWatchdog`. */
  class ServiceWatchdog {
    const config: WatchdogConfig
    var services: map<string, ServiceState>
    var startedAt: int
    var notifiers: seq<Notifier>
    var running: bool

    /** Every event handed to `notify`, in order. */
    ghost var notified: seq<NotificationEvent>
    /** Every command handed to the executor. */
    ghost var executed: seq<Command>

    /** Each record is filed under its own service name. */
    ghost predicate Valid()
      reads this
    {
      NamesMatch(services)
    }

    /** `__init__`: a fresh record per service and a notifier per configuration of known type. */
    constructor (config: WatchdogConfig, factory: NotifierFactory, now: int)
      ensures this.config == config && startedAt == now && !running
      ensures services == InitialStates(config.services)
      ensures notifiers == Instantiate(factory, config.notifiers)
      ensures notified == [] && executed == []
      ensures Valid()
    {
      var states := map[];
      for i := 0 to |config.services|
        invariant states == InitialStates(config.services[..i])
      {
        var svc := config.services[i];
        assert config.services[..i + 1][..i] == config.services[..i];
        states := states[svc.name := Fresh(svc.name)];
      }
      var created := [];
      for i := 0 to |config.notifiers|
        invariant created == Instantiate(factory, config.notifiers[..i])
      {
        assert config.notifiers[..i + 1][..i] == config.notifiers[..i];
        var r := factory.Create(config.notifiers[i]);
        if r.Ok? {
          created := created + [r.value];
        }
      }
      assert config.services[..|config.services|] == config.services;
      assert config.notifiers[..|config.notifiers|] == config.notifiers;
      InitialStatesFresh(config.services);
      this.config := config;
      services := states;
      startedAt := now;
      notifiers := created;
      running := false;
      notified := [];
      executed := [];
    }

    /**
     * `notify`: send the event through every notifier in order; whatever one of them returns or
     * raises, the others are still tried. The outcomes are returned instead of logged.
     */
    method Notify(event: NotificationEvent, deliver: Transport) returns (outcomes: seq<SendOutcome>)
      modifies this`notified
      ensures |outcomes| == |notifiers|
      ensures forall i :: 0 <= i < |notifiers| ==> outcomes[i] == Send(notifiers[i], event, deliver)
      ensures notified == old(notified) + [event]
    {
      outcomes := [];
      for i := 0 to |notifiers|
        invariant |outcomes| == i
        invariant forall k :: 0 <= k < i ==> outcomes[k] == Send(notifiers[k], event, deliver)
        invariant notified == old(notified)
      {
        var n := notifiers[i];
        outcomes := outcomes + [Send(n, event, deliver)];
      }
      notified := notified + [event];
    }

    /** `check_service`: check the service and, when it has a record, remember the time and status. */
    method CheckService(cfg: ServiceConfig, now: int, obs: Observation) returns (status: ServiceStatus)
      requires Valid()
      modifies this`services
      ensures Valid()
      ensures status == CheckStatus(cfg, obs)
      ensures cfg.name in old(services) ==> services == old(services)[cfg.name := Checked(old(services)[cfg.name], status, now)]
      ensures cfg.name !in old(services) ==> services == old(services)
    {
      status := Check(cfg, obs);
      if cfg.name in services {
        var state := services[cfg.name];
        state := state.(lastCheck := Some(now));
        state := state.(lastStatus := Some(status));
        services := services[cfg.name := state];
      }
    }

    /** `handle_failure`. */
    method HandleFailure(cfg: ServiceConfig, status: ServiceStatus, now: int, deliver: Transport)
      requires Valid() && cfg.name in services
      modifies this`services, this`notified
      ensures Valid()
      ensures var step := OnFailure(old(services)[cfg.name], cfg, status, now);
        && services == old(services)[cfg.name := step.state]
        && notified == old(notified) + step.events
    {
      var state := services[cfg.name];
      state := state.(consecutiveFailures := state.consecutiveFailures + 1);
      if state.consecutiveFailures >= cfg.failureThreshold {
        if !state.alerted {
          var event := NotificationEvent(FAILURE, cfg.name, FailedChecks(state.consecutiveFailures, cfg.restartDelay),
                                         Some(status), now);
          var _ := Notify(event, deliver);
          assert [event][..0] == [];
          state := state.(alerted := true);
        }
        if state.pendingRestartAt.None? {
          state := state.(pendingRestartAt := Some(now + cfg.restartDelay));
        }
      }
      services := services[cfg.name := state];
    }

    /** `handle_recovery`. */
    method HandleRecovery(cfg: ServiceConfig, status: ServiceStatus, now: int, deliver: Transport)
      requires Valid() && cfg.name in services
      modifies this`services, this`notified
      ensures Valid()
      ensures var step := OnRecovery(old(services)[cfg.name], cfg, status, now);
        && services == old(services)[cfg.name := step.state]
        && notified == old(notified) + step.events
    {
      var state := services[cfg.name];
      if state.consecutiveFailures > 0 || state.alerted {
        var event := NotificationEvent(RECOVERY, cfg.name, RunningNormally, Some(status), now);
        var _ := Notify(event, deliver);
        assert [event][..0] == [];
      }
      state := state.(consecutiveFailures := 0);
      state := state.(alerted := false);
      state := state.(pendingRestartAt := None);
      services := services[cfg.name := state];
    }

    /** `attempt_restart`, with the controller in the daemon's dry-run mode. */
    method AttemptRestart(cfg: ServiceConfig, now: int, exec: Command -> ExecResult, deliver: Transport)
      requires Valid() && cfg.name in services
      modifies this`services, this`notified, this`executed
      ensures Valid()
      ensures var step := Engine.AttemptRestart(old(services)[cfg.name], cfg, now, config.dryRun, exec);
        && services == old(services)[cfg.name := step.state]
        && notified == old(notified) + step.events
        && executed == old(executed) + step.commands
    {
      var state := services[cfg.name];
      if state.restartWindowStart.None? {
        state := state.(restartWindowStart := Some(now));
        state := state.(restartCount := 0);
      } else if now - state.restartWindowStart.value > cfg.restartWindow {
        state := state.(restartWindowStart := Some(now));
        state := state.(restartCount := 0);
      }

      if state.restartCount >= cfg.maxRestarts {
        var event := NotificationEvent(RESTART_FAILED, cfg.name, ExceededMaxRestarts(cfg.maxRestarts), None, now);
        var _ := Notify(event, deliver);
        assert [event][..0] == [];
        state := state.(pendingRestartAt := None);
        services := services[cfg.name := state];
        return;
      }

      var outcome := Restart(cfg, config.dryRun, exec);
      executed := executed + outcome.executed;
      state := state.(restartCount := state.restartCount + 1);
      state := state.(pendingRestartAt := None);

      var event;
      if outcome.ok {
        event := NotificationEvent(RESTART, cfg.name, Restarted(state.restartCount), None, now);
      } else {
        event := NotificationEvent(RESTART_FAILED, cfg.name,
                                   RestartAttemptFailed(outcome.message, state.restartCount, cfg.maxRestarts), None, now);
        state := state.(pendingRestartAt := Some(now + cfg.restartDelay));
      }
      var _ := Notify(event, deliver);
      assert [event][..0] == [];
      services := services[cfg.name := state];
    }

    /** The records and logs of the daemon, as a round of `run_once` sees them. */
    ghost function Current(): Round
      reads this
    {
      Round(services, notified, executed)
    }

    /**
     * The body of `run_once` for one enabled service: create its record if missing, then run a
     * due restart, or else check it if its check interval has elapsed.
     */
    method CycleService(cfg: ServiceConfig, now: int, obs: Observation, exec: Command -> ExecResult, deliver: Transport)
      requires Valid() && cfg.enabled
      modifies this`services, this`notified, this`executed
      ensures Valid()
      ensures Current() == NextRound(old(Current()), cfg, now, obs, config.dryRun, exec)
    {
      if cfg.name !in services {
        services := services[cfg.name := Fresh(cfg.name)];
      }
      var state := services[cfg.name];
      assert state == RecordFor(old(services), cfg.name);
      ghost var step := ServiceCycle(state, cfg, now, obs, config.dryRun, exec);
      ghost var want := Round(old(services)[cfg.name := step.state], old(notified) + step.events, old(executed) + step.commands);
      assert want == NextRound(old(Current()), cfg, now, obs, config.dryRun, exec);
      assert services[cfg.name := step.state] == old(services)[cfg.name := step.state];

      if state.pendingRestartAt.Some? && state.pendingRestartAt.value != 0 && now >= state.pendingRestartAt.value {
        CycleRestarts(state, cfg, now, obs, config.dryRun, exec);
        AttemptRestart(cfg, now, exec, deliver);
        return;
      }

      if state.lastCheck.Some? && state.lastCheck.value != 0 {
        var elapsed := now - state.lastCheck.value;
        if elapsed < cfg.checkInterval {
          CycleWaits(state, cfg, now, obs, config.dryRun, exec);
          return;
        }
      }

      CycleChecks(state, cfg, now, obs, config.dryRun, exec);
      CheckAndHandle(cfg, now, obs, deliver);
    }

    /** The check at the end of `run_once`'s body: check the service, then handle the outcome. */
    method CheckAndHandle(cfg: ServiceConfig, now: int, obs: Observation, deliver: Transport)
      requires Valid() && cfg.name in services
      modifies this`services, this`notified
      ensures Valid()
      ensures var status := CheckStatus(cfg, obs);
        var checked := Checked(old(services)[cfg.name], status, now);
        var step := if status.Healthy() then OnRecovery(checked, cfg, status, now) else OnFailure(checked, cfg, status, now);
        && services == old(services)[cfg.name := step.state]
        && notified == old(notified) + step.events
    {
      var status := CheckService(cfg, now, obs);
      if status.Healthy() {
        HandleRecovery(cfg, status, now, deliver);
      } else {
        HandleFailure(cfg, status, now, deliver);
      }
    }

    /**
     * `run_once`: one cycle over the configured services in order, skipping disabled ones.
     * `observe` gives what the probes of each service see in this cycle; the snapshot to be saved
     * is returned (none in dry run).
     */
    method RunOnce(now: int, observe: ServiceConfig -> Observation, exec: Command -> ExecResult, deliver: Transport)
      returns (saved: Option<StateDict>)
      requires Valid()
      modifies this`services, this`notified, this`executed
      ensures Current() == RunRound(old(Current()), config.services, now, observe, config.dryRun, exec)
      ensures Valid()
      ensures saved == if config.dryRun then None else Some(StateToDict(WatchdogState(services, startedAt)))
    {
      ghost var start := Current();
      for i := 0 to |config.services|
        invariant Current() == RunRound(start, config.services[..i], now, observe, config.dryRun, exec)
        invariant Valid()
      {
        var cfg := config.services[i];
        RunRoundPrefix(start, config.services, i, now, observe, config.dryRun, exec);
        if cfg.enabled {
          CycleService(cfg, now, observe(cfg), exec, deliver);
        }
      }
      assert config.services[..|config.services|] == config.services;
      RunRoundFrame(start, config.services, now, observe, config.dryRun, exec, |config.services|);
      saved := SaveState();
    }

    /** `_save_state`: the snapshot written to the state file, nothing in dry run. */
    method SaveState() returns (saved: Option<StateDict>)
      ensures config.dryRun ==> saved == None
      ensures !config.dryRun ==> saved == Some(StateToDict(WatchdogState(services, startedAt)))
    {
      if config.dryRun {
        return None;
      }
      saved := Some(StateToDict(WatchdogState(services, startedAt)));
    }

    /**
     * `_load_state`: replace the state by the snapshot read from the state file; `None` stands
     * for a missing or unreadable file, which leaves the state as it was.
     */
    method LoadState(data: Option<StateDict>, now: int)
      requires Valid()
      modifies this`services, this`startedAt
      ensures data.None? ==> services == old(services) && startedAt == old(startedAt)
      ensures data.Some? ==> services == StateFromDict(data.value, now).services
      ensures data.Some? ==> startedAt == StateFromDict(data.value, now).startedAt
      ensures Valid()
    {
      if data.Some? {
        var state := StateFromDict(data.value, now);
        services := state.services;
        startedAt := state.startedAt;
      }
    }
  }
}
