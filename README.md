# service-watchdog, modelled in Dafny

This project models the core of `service-watchdog`, a daemon that keeps system services alive:

- **Checking.** It checks each enabled service, whenever its check interval has elapsed and no restart is due, with up to four probes: health URL, port, PID file and process name.
- **Failure and recovery.** It counts consecutive failed checks. At the failure threshold it alerts once and schedules a restart. When a healthy check comes back, it announces the recovery.
- **Restarting.** It restarts services through their restart, stop and start commands. Restarts are capped at `max_restarts` per `restart_window`.
- **Notifying.** It sends failure, recovery and restart events to Telegram, Slack, e-mail and webhook notifiers, each of which filters the events it receives.
- **Persistence.** It saves its per-service counters as a snapshot and loads them back.

Modules, one per file:

- `Wrappers` (`wrappers.dfy`): `Option` and `Result`.
- `Config` (`config.dfy`): service, notifier and daemon configuration. Covers `validate`, building a configuration from a parsed document (`from_dict`) and exporting it (`to_dict`).
- `Monitor` (`monitor.dfy`):
  - `ServiceStatus` and `healthy`.
  - The probe order of `ServiceMonitor.check`. Each probe is a function of what it observes.
  - The command selection of `ServiceController` `start`, `stop`, `restart` and `_run_command`. The executor is a parameter.
- `Notifiers` (`notifiers.dfy`):
  - Events and their dictionary form.
  - `should_notify`, and the guards of every `send`. The transport is a parameter.
  - The colour and emoji lookups.
  - `NotifierFactory`, a class whose case-insensitive registry `register` updates in place.
- `ServiceStates` (`service_state.dfy`): the per-service record `ServiceState` and the snapshot `WatchdogState.to_dict`/`from_dict`.
- `Engine` (`engine.dfy`):
  - What `handle_failure`, `handle_recovery`, `attempt_restart` and one pass of `run_once` do to a record, which events they notify and which commands they run. These are functions.
  - The lemmas that state what those steps promise: one FAILURE per streak, reset on recovery, the restart budget per window, and the per-service dispatch of `run_once`.
- `Watchdog` (`watchdog.dfy`): the daemon as a class `ServiceWatchdog`.
  - Fields: its records, its notifiers, and ghost logs of the events it notified and the commands it executed.
  - `notify`, `check_service`, `handle_failure`, `handle_recovery`, `attempt_restart` and `run_once` update the records in place.
  - `check_service`, `handle_failure`, `handle_recovery`, `attempt_restart` and `run_once` are each proved equal to the matching `Engine` or `Monitor` function.
  - `notify` has no `Engine` counterpart. Its outcomes are each notifier's `Notifiers.Send` of the event, in list order, and the event is appended once to the log of notified events.

What the model assumes about time and the outside world:

- **Time.** Time is an integer `now` parameter, in seconds. One value is used for a whole cycle.
- **Probes.** What the probes observe is an `Observation` parameter, supplied per service by `observe`.
- **Commands.** The executor's result for each command is an `exec` parameter.
- **Transports.** Each transport's answer is a `deliver` parameter.
- **Python truthiness.** An empty string, port 0 or timestamp 0 counts as absent wherever the code tests truthiness. The code's explicit `is None` tests are kept as such.

How the daemon behaves, as the code has it:

- **Counters, not a health enum.** A service's condition is only the counters and flags of `ServiceState` (`watchdog.py:24-34`): failure count, restart count, window start, last check, pending restart and the alert flag.
- **Tumbling restart window.** Restarts are counted in a tumbling window: a start time plus a counter, reset when more than `restart_window` seconds have passed (`watchdog.py:258-287`).
- **Recovery after unannounced failures.** RECOVERY is sent whenever `consecutive_failures > 0`, even if the failures stayed below the threshold and no FAILURE was ever sent (`watchdog.py:234-245`, `Engine.OnRecoveryResets`).
- **Refused restarts.** A refused restart only cancels the pending restart (`watchdog.py:267-281`). The next failed check schedules a new one, which is refused again while the window lasts (`Engine.RefusedRestartIsRescheduled`). There is no terminal failed state.
- **Sequential cycles.** One `run_once` visits the enabled services in configuration order, one after another, and skips disabled ones (`watchdog.py:312-314`). A due restart replaces that service's check (`watchdog.py:321-324`). A service checked less than `check_interval` seconds ago is left alone (`watchdog.py:326-330`).
- **Loaded snapshots.** Loading a snapshot keeps records of services that are no longer configured (`watchdog.py:62-75`).

## Model

| member | source | states |
|---|---|---|
| Config.ServiceErrors | src/service_watchdog/config.py:42-52 | detection error iff every detection setting is falsy; restart error iff `restart_command` and `start_command` are both None; no other error; detection error first |
| Config.ServiceErrorsBounds | src/service_watchdog/config.py:42-52 | a service has at most two errors, and none exactly when it has a detection method and a restart or start command |
| Config.AllServiceErrorsBounds | src/service_watchdog/config.py:187-188 | the services' errors are at most two per service and never the empty-list error |
| Config.AllServiceErrorsEmpty | src/service_watchdog/config.py:187-188 | the services' errors are empty iff every service is valid |
| Config.AllServiceErrorsAttributed | src/service_watchdog/config.py:187-188 | every reported service error belongs to one of the configured services |
| Config.ConfigErrorsShape | src/service_watchdog/config.py:180-190 | the empty-list error is present, and first, iff there are no services; no errors iff there are services and each is valid; at most 1 + 2·services errors |
| Config.Validate | src/service_watchdog/config.py:180-190 | the error list built by appending in a loop equals the function `ConfigErrors` |
| Config.ServiceFromDict | src/service_watchdog/config.py:133-151 | succeeds iff the entry has a name (else the `name` key error); every other field is the given value or the declared default |
| Config.NotifierFromDict | src/service_watchdog/config.py:156-175 | succeeds iff the entry has a type (else the `type` key error); every other field is the given value or the declared default |
| Config.ParseServices | src/service_watchdog/config.py:132-152 | succeeds iff every entry has a name; then same length and order, entry by entry |
| Config.ParseNotifiers | src/service_watchdog/config.py:155-176 | succeeds iff every entry has a type; then same length and order, entry by entry |
| Config.ParseConfigShape | src/service_watchdog/config.py:119-178 | loading succeeds iff every service has a name and every notifier a type; a nameless service gives the `name` error; lists keep length and order; global settings come from the document or their defaults |
| Config.FromDict | src/service_watchdog/config.py:119-178 | the loop that assigns globals and appends services then notifiers returns exactly `ParseConfig`, including the first missing-key error |
| Config.ToDict | src/service_watchdog/config.py:192-217 | one exported entry per service and per notifier, in order |
| Config.ExportThenLoad | src/service_watchdog/config.py:192-217 | loading an export always succeeds, keeps the global settings and both lists' length and order; services keep their exported fields, and notifiers keep only type and `enabled` |
| Config.ServiceExportThenLoad | src/service_watchdog/config.py:201-213 | one exported service loads back with exactly its exported fields and defaults elsewhere |
| Config.NotifierExportThenLoad | src/service_watchdog/config.py:216 | one exported notifier loads back as the default notifier of its type with its `enabled` flag |
| Config.ReloadKeepsDetection | src/service_watchdog/config.py:205-208 | export keeps every detection setting, so the detection verdict of `validate` survives a reload |
| Config.ReloadDropsStartCommand | src/service_watchdog/config.py:201-213 | a service valid only through its start command reloads without it and fails validation |
| Config.NameOnlyServiceIsDefault | src/service_watchdog/config.py:133-151 | an entry with only a name yields the declared service defaults |
| Config.TypeOnlyNotifierIsDefault | src/service_watchdog/config.py:156-175 | an entry with only a type yields the declared notifier defaults |
| Monitor.ProbeHealthUrlOutcome | src/service_watchdog/monitor.py:153-170 | running iff the status code is below 500, with a 5xx error naming the code; a timeout or request error is recorded and leaves `running` as it was |
| Monitor.Configured | src/service_watchdog/monitor.py:46-65 | the configured methods never include "unknown"; process name can only come last; the list is empty iff no detection method is set |
| Monitor.Check | src/service_watchdog/monitor.py:42-67 | the four guarded probe calls with early returns compute `CheckStatus`, the probes run in order until one reports running |
| Monitor.ProbeRunningIndependent | src/service_watchdog/monitor.py:71-170 | whether a probe finds the service running does not depend on the status passed in, and the probe records its own method |
| Monitor.ErrorSticks | src/service_watchdog/monitor.py:44-65 | once an error is on the threaded status, no later probe clears it |
| Monitor.RunProbesOrder | src/service_watchdog/monitor.py:44-67 | the result names the first method that found the service running, every earlier one having failed, or else the last method tried |
| Monitor.CheckOrder | src/service_watchdog/monitor.py:42-67 | with no method, `check` returns not running with method "unknown"; otherwise it reports the first method that finds the service, or the last tried |
| Monitor.CheckHealthyOnlyFromFirstProbe | src/service_watchdog/monitor.py:30-65 | a check is healthy iff the first configured probe finds it healthy; a fallback probe that finds it running leaves it unhealthy |
| Monitor.FailedProbeRecordsError | src/service_watchdog/monitor.py:90-168 | every probe except process name records an error when it does not find the service |
| Monitor.RunCommand | src/service_watchdog/monitor.py:210-237 | dry run succeeds without executing; live, exactly the command runs and the result is a success iff it exits with 0 |
| Monitor.StartOutcome | src/service_watchdog/monitor.py:180-186 | start runs the start command, else the restart command, else fails with "no start command" without running anything |
| Monitor.StopOutcome | src/service_watchdog/monitor.py:188-194 | stop without a stop command fails without running anything; otherwise it runs the stop command |
| Monitor.RestartCommands | src/service_watchdog/monitor.py:196-208 | a restart command is the only command run; otherwise stop runs first and a failed stop ends the restart with "stop failed" |
| Monitor.RestartSuccess | src/service_watchdog/monitor.py:196-208 | dry run runs nothing and succeeds iff a restart or start command exists; live success iff something ran, all of it succeeded and it did not end at the stop |
| Monitor.RestartStopsWithoutStarting | src/service_watchdog/monitor.py:202-208 | with only a stop command, a live restart stops the service and then fails for lack of a start command |
| Notifiers.EventToDict | src/service_watchdog/notifiers.py:40-54 | type, service name, message and time are copied; status is absent iff the event has none, else exactly running, pid and error |
| Notifiers.EventToDictLosesOnlyNameAndMethod | src/service_watchdog/notifiers.py:40-54 | two events have the same dictionary iff they differ only in the status's name and check method |
| Notifiers.ShouldNotify | src/service_watchdog/notifiers.py:63-75 | disabled means never; failure follows `on_failure`, recovery `on_recovery`, restart and restart_failed `on_restart`, other types always |
| Notifiers.ShouldNotifyCharacterised | src/service_watchdog/notifiers.py:63-75 | an event passes iff the notifier is enabled and subscribed to the event's known type |
| Notifiers.SlackColor | src/service_watchdog/notifiers.py:138-144 | danger iff failure or restart_failed, good iff recovery, warning iff restart, grey iff the type is unknown |
| Notifiers.TelegramEmoji | src/service_watchdog/notifiers.py:94-100 | the intended lookup: one distinct one-character emoji per event type, iff that type, and the loudspeaker iff the type is unknown |
| Notifiers.TelegramEmojiAsWritten | src/service_watchdog/notifiers.py:94-100 | the strings the lookup actually holds: a distinct 2-4 character string per event type, iff that type, and its own string iff the type is unknown |
| Notifiers.TelegramEmojiMisencoded | src/service_watchdog/notifiers.py:94-100 | for every event type the string written is the intended emoji's UTF-8 bytes read as Windows-1252, and never the emoji itself |
| Notifiers.Send | src/service_watchdog/notifiers.py:86-264 | a filtered event returns success (skipped); a missing setting returns failure; otherwise success iff the transport accepted; only HTTP notifiers let a non-`requests` exception escape |
| Notifiers.GuardedSendIgnoresTransport | src/service_watchdog/notifiers.py:87-91 | when a guard stops the send, the result does not depend on the transport, and is a success iff the event was filtered out |
| Notifiers.Lower | src/service_watchdog/notifiers.py:280 | lower-casing keeps the length and lower-cases each letter |
| Notifiers.LowerIdempotent | src/service_watchdog/notifiers.py:280-288 | lower-casing a registered tag again changes nothing |
| Notifiers.NotifierFactory.constructor | src/service_watchdog/notifiers.py:270-275 | the registry starts as the four built-in tags |
| Notifiers.NotifierFactory.Create | src/service_watchdog/notifiers.py:278-283 | succeeds iff the lower-cased type is registered, creating that kind; otherwise the unknown-type error |
| Notifiers.NotifierFactory.Register | src/service_watchdog/notifiers.py:286-288 | afterwards any type equal to the name up to case creates the new kind, overriding, and every other type creates what it did before |
| Notifiers.DefaultRegistryLookup | src/service_watchdog/notifiers.py:270-283 | a type is found among the built-ins iff it lower-cases to telegram, slack, email or webhook, giving that kind |
| ServiceStates.StateToDict | src/service_watchdog/watchdog.py:44-59 | one entry per service under the same key, each with every key present |
| ServiceStates.EntryFromDict | src/service_watchdog/watchdog.py:66-74 | the record takes its name from the key and has no last status; `consecutive_failures`, `restart_count` and `alerted` are the stored values when present and a fresh record's (0, 0, false) when missing; the restart window start, last check and pending restart time are exactly as stored (missing stays none) |
| ServiceStates.StateFromDict | src/service_watchdog/watchdog.py:62-75 | start time from the snapshot or `now`; one record per key, filed under its own name |
| ServiceStates.EmptyEntryIsFresh | src/service_watchdog/watchdog.py:66-74 | an entry with no keys loads as a fresh record (0, 0, None, None, None, False) |
| ServiceStates.SnapshotRoundTrip | src/service_watchdog/watchdog.py:44-75 | save then load keeps the start time and every record except its last status |
| ServiceStates.SnapshotStable | src/service_watchdog/watchdog.py:44-75 | saving again after a load gives the same snapshot |
| Engine.OnFailureBelowThreshold | src/service_watchdog/watchdog.py:201-212 | below the threshold a failure only adds one to the count: nothing else changes, nothing is notified |
| Engine.OnFailureAtThreshold | src/service_watchdog/watchdog.py:201-230 | count +1 and budget untouched; FAILURE iff not alerted and at the threshold; alerted afterwards; a pending restart is never moved, a missing one set to now + delay |
| Engine.FailureStreakAlertsOnce | src/service_watchdog/watchdog.py:212-230 | over any run of failures at most one FAILURE is sent, exactly when the threshold is reached unalerted; a pending restart keeps its time |
| Engine.OnRecoveryResets | src/service_watchdog/watchdog.py:232-251 | count 0, not alerted, nothing pending, budget untouched; RECOVERY iff there were failures or an alert |
| Engine.OnRecoveryIdempotent | src/service_watchdog/watchdog.py:232-251 | a second recovery in a row changes nothing and notifies nothing |
| Engine.AttemptRestartRefused | src/service_watchdog/watchdog.py:258-281 | with the window's budget spent: no command, count kept, pending restart cancelled, one RESTART_FAILED |
| Engine.AttemptRestartPermitted | src/service_watchdog/watchdog.py:258-308 | window reset iff none or strictly expired; count +1; the controller's commands; one RESTART with nothing pending, or RESTART_FAILED with a retry after the delay |
| Engine.RefusedRestartIsRescheduled | src/service_watchdog/watchdog.py:225-281 | after a refusal the next failed check schedules a new restart, silently when already alerted |
| Engine.AttemptRestartKeepsBudget | src/service_watchdog/watchdog.py:258-287 | a restart attempt keeps the count between 0 and `max_restarts` |
| Engine.RestartAttemptsKeepBudget | src/service_watchdog/watchdog.py:258-287 | any run of restart attempts keeps the count within the budget |
| Engine.AttemptRestartCount | src/service_watchdog/watchdog.py:267-287 | an attempt adds one to its window's count iff it is allowed |
| Engine.RestartsWithinWindow | src/service_watchdog/watchdog.py:258-287 | within one window the count grows by exactly the allowed attempts, which never exceed `max_restarts` |
| Engine.CycleRestarts | src/service_watchdog/watchdog.py:321-324 | a due pending restart runs `attempt_restart` and nothing else that cycle |
| Engine.CycleWaits | src/service_watchdog/watchdog.py:326-330 | before the check interval has elapsed a cycle changes nothing |
| Engine.CycleChecks | src/service_watchdog/watchdog.py:332-338 | otherwise the service is checked, healthy leads to recovery and anything else to failure |
| Engine.ServiceCycleCases | src/service_watchdog/watchdog.py:316-338 | a restart cycle leaves the last check alone; a checking cycle records time and status, resets on healthy and counts a failure otherwise; the name is kept |
| Engine.ServiceCycleKeepsBudget | src/service_watchdog/watchdog.py:316-338 | every cycle keeps the restart budget |
| Engine.RunRoundFrame | src/service_watchdog/watchdog.py:310-319 | a round adds exactly the enabled services' records, keeps each record under its own name and leaves every other record unchanged, so disabled services are skipped |
| Engine.RunRoundKeepsBudget | src/service_watchdog/watchdog.py:310-338 | with unique names, a round keeps every configured service within its restart budget |
| Watchdog.InitialStatesFresh | src/service_watchdog/watchdog.py:87-89 | a new daemon holds exactly one fresh record per configured service name |
| Watchdog.InstantiateLength | src/service_watchdog/watchdog.py:91-97 | at most one notifier is created per configuration |
| Watchdog.InstantiateSkipsUnknown | src/service_watchdog/watchdog.py:91-97 | every created notifier comes from a configuration whose type is registered, with that kind |
| Watchdog.InstantiateAllKnown | src/service_watchdog/watchdog.py:91-97 | when every type is registered there is one notifier per configuration, in order |
| Watchdog.ServiceWatchdog.constructor | src/service_watchdog/watchdog.py:81-97 | fresh records for the configured services, the notifiers of known types, not running, empty logs |
| Watchdog.ServiceWatchdog.Notify | src/service_watchdog/watchdog.py:177-187 | every notifier's `send` runs once, in list order, whatever the others returned or raised |
| Watchdog.ServiceWatchdog.CheckService | src/service_watchdog/watchdog.py:189-199 | returns the check's status and, only for a service with a record, stores the time and status |
| Watchdog.ServiceWatchdog.HandleFailure | src/service_watchdog/watchdog.py:201-230 | the in-place update and the notified events are those of `Engine.OnFailure` |
| Watchdog.ServiceWatchdog.HandleRecovery | src/service_watchdog/watchdog.py:232-251 | the in-place update and the notified events are those of `Engine.OnRecovery` |
| Watchdog.ServiceWatchdog.AttemptRestart | src/service_watchdog/watchdog.py:253-308 | the in-place update, events and executed commands are those of `Engine.AttemptRestart` |
| Watchdog.ServiceWatchdog.CycleService | src/service_watchdog/watchdog.py:313-338 | one enabled service's pass of `run_once` is `Engine.NextRound` on the records and logs |
| Watchdog.ServiceWatchdog.CheckAndHandle | src/service_watchdog/watchdog.py:332-338 | the check is stored, then recovery follows if healthy and failure otherwise |
| Watchdog.ServiceWatchdog.RunOnce | src/service_watchdog/watchdog.py:310-340 | the loop over the services equals `Engine.RunRound` and keeps records under their names; the saved snapshot is that of the final state, and there is none in dry run |
| Watchdog.ServiceWatchdog.SaveState | src/service_watchdog/watchdog.py:142-153 | nothing in dry run, else the snapshot of the current records and start time |
| Watchdog.ServiceWatchdog.LoadState | src/service_watchdog/watchdog.py:130-140 | a missing or unreadable file leaves the state as it was; otherwise the state becomes the loaded snapshot |

## Findings

| source | as written | input that shows it | evidently intended | confidence | as-written member | corrected member |
|---|---|---|---|---|---|---|
| src/service_watchdog/notifiers.py:94-100 | the Telegram `emoji_map` and its default hold each emoji's UTF-8 bytes decoded as Windows-1252, 2 to 4 characters each; the cross mark has also lost its undefined byte 0x9D | a FAILURE event: the message starts with U+00F0 U+0178 U+201D U+00B4 instead of U+1F534 | one emoji per event type: U+1F534, U+2705, U+1F504, U+274C, and U+1F4E2 for unknown types | high; not executed | Notifiers.TelegramEmojiAsWritten, Notifiers.TelegramEmojiMisencoded | Notifiers.TelegramEmoji |

## Left out

- Logging, the log file setup, the PID file, signal handlers and the one-second sleep loop of `run` are not modelled. They are I/O and process plumbing (`watchdog.py:101-175`, `watchdog.py:342-368`).
- Reading and writing the state file is not modelled. `SaveState` returns the snapshot, and `LoadState` takes the snapshot that was read, with `None` for a missing or unreadable file.
- `ServiceWatchdog.status` is not modelled. It probes live and formats a report (`watchdog.py:370-396`).
- The probes' system calls are not modelled: the process table, reading the PID file, the socket connect and the HTTP request. Each probe is a function of an `Observation` that records the outcomes the probe handles: its return values and the exceptions it catches. CPU, memory and uptime figures are floats and are left out.
- Monitor.Check: returns a status for every observation. In the code, exceptions the probes do not catch escape `check`. Among them:
  - `OverflowError` from `connect_ex` for a port outside 0..65535, which `validate` accepts and `except socket.error` does not catch (`monitor.py:125-130`);
  - an `OSError` from creating the socket, which happens outside the `try` (`monitor.py:121`);
  - a `PermissionError` from `pid_path.exists()` for an unsearchable parent directory, also outside the `try` (`monitor.py:96`);
  - any `OSError` from reading the PID file, such as `PermissionError` or `IsADirectoryError` when `pid_file` names a directory, since only `ValueError` and `psutil.NoSuchProcess` are caught (`monitor.py:99-113`);
  - `psutil.AccessDenied` from `cpu_percent`, `memory_info` or `create_time` in the PID-file probe (`monitor.py:105-107`).

  Each of these propagates through `check_service` and `run_once` and ends the `run` loop, which has only `try/finally` (`watchdog.py:362-366`). The model has no outcome for them: it maps such inputs to one of the handled outcomes or has no observation for them. So `Engine.RunRound` and `Watchdog.ServiceWatchdog.RunOnce` describe every cycle as completing.
- Monitor.ProbePort: a `psutil.AccessDenied` while looking up the listening process is folded into "no PID found".
- Starting commands is not modelled: `subprocess.run`, the merged environment and the working directory. The executor is the `exec` parameter.
- The notifier transports are not modelled: HTTP via `requests`, and SMTP with TLS and MIME. Each is the `deliver` parameter.
- Message texts, Markdown, HTML and `strftime` timestamps are not modelled. An event's message is the datatype of the values it interpolates.
- Registering arbitrary Python classes is not modelled. The registry maps lower-case tags to the four built-in notifier kinds.
- Notifiers.Lower: lower-cases ASCII letters only, not all of Unicode as `str.lower` does.
- Timestamps are integer seconds, not floats. `run_once` uses one `now` for a whole cycle, where the code reads the clock at every step.
- Watchdog.ServiceWatchdog.Notify: returns each notifier's outcome instead of logging it. What is logged is not modelled.
- Configuration documents are records of optional fields. The model does not cover values of the wrong type, an explicit null for a key that has a default, or unknown keys.
- `WatchdogConfig.from_yaml`, `cli.py` and `__init__.py` are not part of this model. They are file and YAML parsing, the command-line interface and re-exports.
