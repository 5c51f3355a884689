/**
 * Configuration records of the watchdog: one record per monitored service, one per notification
 * channel, and the daemon-wide settings; their validation, their construction from a parsed
 * dictionary with defaults, and their export back to a dictionary.
 */
module Config {
  import opened Wrappers

  /** Python truthiness of an optional string: present and not empty. */
  predicate IsSet(s: Option<string>) {
    s.Some? && s.value != ""
  }

  /** Python truthiness of an optional port number: present and not zero. */
  predicate PortSet(p: Option<int>) {
    p.Some? && p.value != 0
  }

  datatype ServiceConfig = ServiceConfig(
    name: string,
    enabled: bool,
    // detection methods
    processName: Option<string>,
    pidFile: Option<string>,
    port: Option<int>,
    healthUrl: Option<string>,
    healthTimeout: int,
    // restart configuration
    restartCommand: Option<string>,
    stopCommand: Option<string>,
    startCommand: Option<string>,
    workingDir: Option<string>,
    restartDelay: int,
    maxRestarts: int,
    restartWindow: int,
    // check intervals
    checkInterval: int,
    failureThreshold: int,
    env: map<string, string>)

  datatype NotifierConfig = NotifierConfig(
    notifierType: string,
    enabled: bool,
    botToken: Option<string>,
    chatId: Option<string>,
    webhookUrl: Option<string>,
    channel: Option<string>,
    smtpHost: Option<string>,
    smtpPort: int,
    smtpUser: Option<string>,
    smtpPassword: Option<string>,
    fromAddr: Option<string>,
    toAddrs: seq<string>,
    url: Option<string>,
    httpMethod: string,
    headers: map<string, string>,
    onFailure: bool,
    onRecovery: bool,
    onRestart: bool)

  datatype WatchdogConfig = WatchdogConfig(
    services: seq<ServiceConfig>,
    notifiers: seq<NotifierConfig>,
    logFile: string,
    logLevel: string,
    pidFile: string,
    stateFile: string,
    dryRun: bool,
    daemon: bool)

  /** A service configured with nothing but its name: the declared field defaults. */
  function DefaultService(name: string): ServiceConfig {
    ServiceConfig(name, true, None, None, None, None, 10, None, None, None, None, 60, 3, 3600, 30, 2, map[])
  }

  /** A notification channel configured with nothing but its type: the declared field defaults. */
  function DefaultNotifier(notifierType: string): NotifierConfig {
    NotifierConfig(notifierType, true, None, None, None, None, None, 587, None, None, None, [],
                   None, "POST", map[], true, true, true)
  }

  /** The daemon configuration before anything is read. */
  function DefaultWatchdog(): WatchdogConfig {
    WatchdogConfig([], [], "/var/log/service-watchdog.log", "INFO", "/var/run/service-watchdog.pid",
                   "/var/lib/service-watchdog/state.json", false, false)
  }

  // ---------------------------------------------------------------------------------------------
  // Validation
  // ---------------------------------------------------------------------------------------------

  datatype ConfigError =
    | NoServices                          // no service configured at all
    | NoDetectionMethod(service: string)  // none of process name, PID file, port, health URL
    | NoRestartCommand(service: string)   // neither restart_command nor start_command

  /** At least one detection method is configured (a falsy value counts as absent). */
  predicate HasDetectionMethod(s: ServiceConfig) {
    IsSet(s.processName) || IsSet(s.pidFile) || PortSet(s.port) || IsSet(s.healthUrl)
  }

  /** The errors `ServiceConfig.validate` reports for one service, detection error first. */
  function ServiceErrors(s: ServiceConfig): (errors: seq<ConfigError>)
    ensures NoDetectionMethod(s.name) in errors <==> !HasDetectionMethod(s)
    ensures NoRestartCommand(s.name) in errors <==> s.restartCommand.None? && s.startCommand.None?
    ensures forall e :: e in errors ==> e == NoDetectionMethod(s.name) || e == NoRestartCommand(s.name)
    ensures !HasDetectionMethod(s) ==> errors[0] == NoDetectionMethod(s.name)
  {
    (if HasDetectionMethod(s) then [] else [NoDetectionMethod(s.name)])
    + (if s.restartCommand.None? && s.startCommand.None? then [NoRestartCommand(s.name)] else [])
  }

  /** The errors of every service, concatenated in list order. */
  function AllServiceErrors(services: seq<ServiceConfig>): seq<ConfigError>
    decreases |services|
  {
    if services == [] then []
    else AllServiceErrors(services[..|services| - 1]) + ServiceErrors(services[|services| - 1])
  }

  /** The errors `WatchdogConfig.validate` reports. */
  function ConfigErrors(c: WatchdogConfig): seq<ConfigError> {
    (if c.services == [] then [NoServices] else []) + AllServiceErrors(c.services)
  }

  /** A service has at most two errors, and none exactly when it is valid. */
  lemma ServiceErrorsBounds(s: ServiceConfig)
    ensures |ServiceErrors(s)| <= 2
    ensures NoServices !in ServiceErrors(s)
    ensures ServiceErrors(s) == [] <==> HasDetectionMethod(s) && (s.restartCommand.Some? || s.startCommand.Some?)
  {
  }

  /** The concatenated errors are at most two per service and never the empty-list error. */
  lemma {:induction false} AllServiceErrorsBounds(services: seq<ServiceConfig>)
    ensures |AllServiceErrors(services)| <= 2 * |services|
    ensures NoServices !in AllServiceErrors(services)
    decreases |services|
  {
    if services != [] {
      var n := |services| - 1;
      AllServiceErrorsBounds(services[..n]);
      ServiceErrorsBounds(services[n]);
    }
  }

  /** The concatenated errors are empty exactly when every service is valid. */
  lemma {:induction false} AllServiceErrorsEmpty(services: seq<ServiceConfig>)
    ensures AllServiceErrors(services) == [] <==> forall i :: 0 <= i < |services| ==> ServiceErrors(services[i]) == []
    decreases |services|
  {
    if services != [] {
      var n := |services| - 1;
      AllServiceErrorsEmpty(services[..n]);
      assert AllServiceErrors(services) == AllServiceErrors(services[..n]) + ServiceErrors(services[n]);
      assert forall i :: 0 <= i < n ==> services[..n][i] == services[i];
    }
  }

  /** Taking one more service appends that service's errors. */
  lemma AllServiceErrorsExtend(services: seq<ServiceConfig>, i: nat)
    requires i < |services|
    ensures AllServiceErrors(services[..i + 1]) == AllServiceErrors(services[..i]) + ServiceErrors(services[i])
  {
    assert services[..i + 1][..i] == services[..i];
  }

  /** Every error reported for a list of services belongs to one of those services. */
  lemma {:induction false} AllServiceErrorsAttributed(services: seq<ServiceConfig>, e: ConfigError)
    requires e in AllServiceErrors(services)
    ensures exists i :: 0 <= i < |services| && e in ServiceErrors(services[i])
    decreases |services|
  {
    var n := |services| - 1;
    if e in ServiceErrors(services[n]) {
    } else {
      AllServiceErrorsAttributed(services[..n], e);
      var i :| 0 <= i < n && e in ServiceErrors(services[..n][i]);
      assert services[..n][i] == services[i];
    }
  }

  /**
   * What `WatchdogConfig.validate` promises: the empty-list error exactly when there is no service,
   * and then first; no error at all exactly when there are services and each one is valid.
   */
  lemma ConfigErrorsShape(c: WatchdogConfig)
    ensures (|ConfigErrors(c)| > 0 && ConfigErrors(c)[0] == NoServices) <==> c.services == []
    ensures NoServices in ConfigErrors(c) <==> c.services == []
    ensures ConfigErrors(c) == [] <==>
              c.services != [] && forall i :: 0 <= i < |c.services| ==> ServiceErrors(c.services[i]) == []
    ensures |ConfigErrors(c)| <= 1 + 2 * |c.services|
  {
    AllServiceErrorsBounds(c.services);
    AllServiceErrorsEmpty(c.services);
    if c.services != [] && |ConfigErrors(c)| > 0 {
      assert ConfigErrors(c)[0] in AllServiceErrors(c.services);
    }
  }

  /** `WatchdogConfig.validate`: the empty-list error first, then each service's errors in order. */
  method Validate(c: WatchdogConfig) returns (errors: seq<ConfigError>)
    ensures errors == ConfigErrors(c)
  {
    errors := [];
    if c.services == [] {
      errors := errors + [NoServices];
    }
    ghost var head := errors;
    for i := 0 to |c.services|
      invariant errors == head + AllServiceErrors(c.services[..i])
    {
      AllServiceErrorsExtend(c.services, i);
      errors := errors + ServiceErrors(c.services[i]);
    }
    assert c.services[..|c.services|] == c.services;
  }

  // ---------------------------------------------------------------------------------------------
  // Construction from a parsed dictionary
  // ---------------------------------------------------------------------------------------------

  /** A service entry of the parsed configuration: each key `None` when the entry leaves it out. */
  datatype ServiceDict = ServiceDict(
    name: Option<string>,
    enabled: Option<bool>,
    processName: Option<string>,
    pidFile: Option<string>,
    port: Option<int>,
    healthUrl: Option<string>,
    healthTimeout: Option<int>,
    restartCommand: Option<string>,
    stopCommand: Option<string>,
    startCommand: Option<string>,
    workingDir: Option<string>,
    restartDelay: Option<int>,
    maxRestarts: Option<int>,
    restartWindow: Option<int>,
    checkInterval: Option<int>,
    failureThreshold: Option<int>,
    env: Option<map<string, string>>)

  /** A notifier entry of the parsed configuration. */
  datatype NotifierDict = NotifierDict(
    notifierType: Option<string>,
    enabled: Option<bool>,
    botToken: Option<string>,
    chatId: Option<string>,
    webhookUrl: Option<string>,
    channel: Option<string>,
    smtpHost: Option<string>,
    smtpPort: Option<int>,
    smtpUser: Option<string>,
    smtpPassword: Option<string>,
    fromAddr: Option<string>,
    toAddrs: Option<seq<string>>,
    url: Option<string>,
    httpMethod: Option<string>,
    headers: Option<map<string, string>>,
    onFailure: Option<bool>,
    onRecovery: Option<bool>,
    onRestart: Option<bool>)

  /** The whole parsed configuration document. */
  datatype ConfigDict = ConfigDict(
    logFile: Option<string>,
    logLevel: Option<string>,
    pidFile: Option<string>,
    stateFile: Option<string>,
    dryRun: Option<bool>,
    daemon: Option<bool>,
    services: Option<seq<ServiceDict>>,
    notifiers: Option<seq<NotifierDict>>)

  /** The KeyError raised for an entry without its mandatory key. */
  datatype DictError = MissingKey(key: string)

  /** The value given for an optional key, else the fallback. */
  function OrElse<T>(given: Option<T>, fallback: Option<T>): Option<T> {
    if given.Some? then given else fallback
  }

  /** Every field of `r` is the one `d` gives, or `base`'s where `d` leaves it out. */
  ghost predicate ServiceOverlay(d: ServiceDict, base: ServiceConfig, r: ServiceConfig) {
    && r.enabled == d.enabled.GetOr(base.enabled)
    && r.processName == OrElse(d.processName, base.processName)
    && r.pidFile == OrElse(d.pidFile, base.pidFile)
    && r.port == OrElse(d.port, base.port)
    && r.healthUrl == OrElse(d.healthUrl, base.healthUrl)
    && r.healthTimeout == d.healthTimeout.GetOr(base.healthTimeout)
    && r.restartCommand == OrElse(d.restartCommand, base.restartCommand)
    && r.stopCommand == OrElse(d.stopCommand, base.stopCommand)
    && r.startCommand == OrElse(d.startCommand, base.startCommand)
    && r.workingDir == OrElse(d.workingDir, base.workingDir)
    && r.restartDelay == d.restartDelay.GetOr(base.restartDelay)
    && r.maxRestarts == d.maxRestarts.GetOr(base.maxRestarts)
    && r.restartWindow == d.restartWindow.GetOr(base.restartWindow)
    && r.checkInterval == d.checkInterval.GetOr(base.checkInterval)
    && r.failureThreshold == d.failureThreshold.GetOr(base.failureThreshold)
    && r.env == d.env.GetOr(base.env)
  }

  /** Every field of `r` is the one `d` gives, or `base`'s where `d` leaves it out. */
  ghost predicate NotifierOverlay(d: NotifierDict, base: NotifierConfig, r: NotifierConfig) {
    && r.enabled == d.enabled.GetOr(base.enabled)
    && r.botToken == OrElse(d.botToken, base.botToken)
    && r.chatId == OrElse(d.chatId, base.chatId)
    && r.webhookUrl == OrElse(d.webhookUrl, base.webhookUrl)
    && r.channel == OrElse(d.channel, base.channel)
    && r.smtpHost == OrElse(d.smtpHost, base.smtpHost)
    && r.smtpPort == d.smtpPort.GetOr(base.smtpPort)
    && r.smtpUser == OrElse(d.smtpUser, base.smtpUser)
    && r.smtpPassword == OrElse(d.smtpPassword, base.smtpPassword)
    && r.fromAddr == OrElse(d.fromAddr, base.fromAddr)
    && r.toAddrs == d.toAddrs.GetOr(base.toAddrs)
    && r.url == OrElse(d.url, base.url)
    && r.httpMethod == d.httpMethod.GetOr(base.httpMethod)
    && r.headers == d.headers.GetOr(base.headers)
    && r.onFailure == d.onFailure.GetOr(base.onFailure)
    && r.onRecovery == d.onRecovery.GetOr(base.onRecovery)
    && r.onRestart == d.onRestart.GetOr(base.onRestart)
  }

  /** One `ServiceConfig(...)` built by `from_dict`: a missing name raises, other keys default. */
  function ServiceFromDict(d: ServiceDict): (r: Result<ServiceConfig, DictError>)
    ensures r.Ok? <==> d.name.Some?
    ensures r.Err? ==> r.error == MissingKey("name")
    ensures r.Ok? ==> r.value.name == d.name.value && ServiceOverlay(d, DefaultService(d.name.value), r.value)
  {
    match d.name
    case None => Err(MissingKey("name"))
    case Some(name) =>
      Ok(ServiceConfig(
           name,
           d.enabled.GetOr(true),
           d.processName,
           d.pidFile,
           d.port,
           d.healthUrl,
           d.healthTimeout.GetOr(10),
           d.restartCommand,
           d.stopCommand,
           d.startCommand,
           d.workingDir,
           d.restartDelay.GetOr(60),
           d.maxRestarts.GetOr(3),
           d.restartWindow.GetOr(3600),
           d.checkInterval.GetOr(30),
           d.failureThreshold.GetOr(2),
           d.env.GetOr(map[])))
  }

  /** One `NotifierConfig(...)` built by `from_dict`: a missing type raises, other keys default. */
  function NotifierFromDict(d: NotifierDict): (r: Result<NotifierConfig, DictError>)
    ensures r.Ok? <==> d.notifierType.Some?
    ensures r.Err? ==> r.error == MissingKey("type")
    ensures r.Ok? ==>
              r.value.notifierType == d.notifierType.value && NotifierOverlay(d, DefaultNotifier(d.notifierType.value), r.value)
  {
    match d.notifierType
    case None => Err(MissingKey("type"))
    case Some(t) =>
      Ok(NotifierConfig(
           t,
           d.enabled.GetOr(true),
           d.botToken,
           d.chatId,
           d.webhookUrl,
           d.channel,
           d.smtpHost,
           d.smtpPort.GetOr(587),
           d.smtpUser,
           d.smtpPassword,
           d.fromAddr,
           d.toAddrs.GetOr([]),
           d.url,
           d.httpMethod.GetOr("POST"),
           d.headers.GetOr(map[]),
           d.onFailure.GetOr(true),
           d.onRecovery.GetOr(true),
           d.onRestart.GetOr(true)))
  }

  /** The services list of `from_dict`: every entry in order, or the first missing-name error. */
  function ParseServices(ds: seq<ServiceDict>): (r: Result<seq<ServiceConfig>, DictError>)
    ensures r.Ok? <==> forall i :: 0 <= i < |ds| ==> ds[i].name.Some?
    ensures r.Err? ==> r.error == MissingKey("name")
    ensures r.Ok? ==> |r.value| == |ds| && forall i :: 0 <= i < |ds| ==> ServiceFromDict(ds[i]) == Ok(r.value[i])
    decreases |ds|
  {
    if ds == [] then Ok([])
    else
      var n := |ds| - 1;
      match ParseServices(ds[..n])
      case Err(e) => Err(e)
      case Ok(front) =>
        match ServiceFromDict(ds[n])
        case Err(e) => Err(e)
        case Ok(last) => Ok(front + [last])
  }

  /** The notifiers list of `from_dict`: every entry in order, or the first missing-type error. */
  function ParseNotifiers(ds: seq<NotifierDict>): (r: Result<seq<NotifierConfig>, DictError>)
    ensures r.Ok? <==> forall i :: 0 <= i < |ds| ==> ds[i].notifierType.Some?
    ensures r.Err? ==> r.error == MissingKey("type")
    ensures r.Ok? ==> |r.value| == |ds| && forall i :: 0 <= i < |ds| ==> NotifierFromDict(ds[i]) == Ok(r.value[i])
    decreases |ds|
  {
    if ds == [] then Ok([])
    else
      var n := |ds| - 1;
      match ParseNotifiers(ds[..n])
      case Err(e) => Err(e)
      case Ok(front) =>
        match NotifierFromDict(ds[n])
        case Err(e) => Err(e)
        case Ok(last) => Ok(front + [last])
  }

  /** Parsing one more service entry appends it, or fails on it. */
  lemma ParseServicesExtend(ds: seq<ServiceDict>, i: nat)
    requires i < |ds|
    ensures ParseServices(ds[..i + 1]) ==
              match ParseServices(ds[..i])
              case Err(e) => Err(e)
              case Ok(front) => if ds[i].name.Some? then Ok(front + [ServiceFromDict(ds[i]).value]) else Err(MissingKey("name"))
  {
    assert ds[..i + 1][..i] == ds[..i];
  }

  /** A failing prefix makes the whole services list fail. */
  lemma ParseServicesPrefixError(ds: seq<ServiceDict>, i: nat)
    requires i <= |ds| && ParseServices(ds[..i]).Err?
    ensures ParseServices(ds) == Err(MissingKey("name"))
  {
    var j :| 0 <= j < i && ds[..i][j].name.None?;
    assert ds[j].name.None?;
  }

  /** Parsing one more notifier entry appends it, or fails on it. */
  lemma ParseNotifiersExtend(ds: seq<NotifierDict>, i: nat)
    requires i < |ds|
    ensures ParseNotifiers(ds[..i + 1]) ==
              match ParseNotifiers(ds[..i])
              case Err(e) => Err(e)
              case Ok(front) => if ds[i].notifierType.Some? then Ok(front + [NotifierFromDict(ds[i]).value]) else Err(MissingKey("type"))
  {
    assert ds[..i + 1][..i] == ds[..i];
  }

  /** A failing prefix makes the whole notifiers list fail. */
  lemma ParseNotifiersPrefixError(ds: seq<NotifierDict>, i: nat)
    requires i <= |ds| && ParseNotifiers(ds[..i]).Err?
    ensures ParseNotifiers(ds) == Err(MissingKey("type"))
  {
    var j :| 0 <= j < i && ds[..i][j].notifierType.None?;
    assert ds[j].notifierType.None?;
  }

  /** What `WatchdogConfig.from_dict` returns or raises for a parsed document. */
  function ParseConfig(data: ConfigDict): Result<WatchdogConfig, DictError> {
    var base := DefaultWatchdog();
    match ParseServices(data.services.GetOr([]))
    case Err(e) => Err(e)
    case Ok(services) =>
      match ParseNotifiers(data.notifiers.GetOr([]))
      case Err(e) => Err(e)
      case Ok(notifiers) =>
        Ok(WatchdogConfig(services, notifiers,
                          data.logFile.GetOr(base.logFile), data.logLevel.GetOr(base.logLevel),
                          data.pidFile.GetOr(base.pidFile), data.stateFile.GetOr(base.stateFile),
                          data.dryRun.GetOr(base.dryRun), data.daemon.GetOr(base.daemon)))
  }

  /**
   * What `WatchdogConfig.from_dict` promises: it succeeds exactly when every service entry has a
   * name and every notifier entry a type (a nameless service is reported first), keeps both lists'
   * length and order, and takes each global setting from the document or else its default.
   */
  lemma ParseConfigShape(data: ConfigDict)
    ensures ParseConfig(data).Ok? <==>
              (forall d :: d in data.services.GetOr([]) ==> d.name.Some?) &&
              (forall d :: d in data.notifiers.GetOr([]) ==> d.notifierType.Some?)
    ensures (exists d :: d in data.services.GetOr([]) && d.name.None?) ==>
              ParseConfig(data) == Err(MissingKey("name"))
    ensures ParseConfig(data).Ok? ==>
              var c := ParseConfig(data).value;
              && |c.services| == |data.services.GetOr([])|
              && (forall i :: 0 <= i < |c.services| ==> ServiceFromDict(data.services.GetOr([])[i]) == Ok(c.services[i]))
              && |c.notifiers| == |data.notifiers.GetOr([])|
              && (forall i :: 0 <= i < |c.notifiers| ==> NotifierFromDict(data.notifiers.GetOr([])[i]) == Ok(c.notifiers[i]))
              && c.logFile == data.logFile.GetOr(DefaultWatchdog().logFile)
              && c.logLevel == data.logLevel.GetOr(DefaultWatchdog().logLevel)
              && c.pidFile == data.pidFile.GetOr(DefaultWatchdog().pidFile)
              && c.stateFile == data.stateFile.GetOr(DefaultWatchdog().stateFile)
              && c.dryRun == data.dryRun.GetOr(DefaultWatchdog().dryRun)
              && c.daemon == data.daemon.GetOr(DefaultWatchdog().daemon)
  {
    var sds := data.services.GetOr([]);
    var nds := data.notifiers.GetOr([]);
    if exists d :: d in sds && d.name.None? {
      var d :| d in sds && d.name.None?;
      var i :| 0 <= i < |sds| && sds[i] == d;
      assert !ParseServices(sds).Ok?;
    }
    if (forall d :: d in sds ==> d.name.Some?) && (forall d :: d in nds ==> d.notifierType.Some?) {
      assert forall i :: 0 <= i < |sds| ==> sds[i] in sds;
      assert forall i :: 0 <= i < |nds| ==> nds[i] in nds;
    }
  }

  /**
   * `WatchdogConfig.from_dict`: global settings default to the declared ones, services then
   * notifiers are appended in input order; an entry without `name` (or `type`) raises.
   */
  method FromDict(data: ConfigDict) returns (r: Result<WatchdogConfig, DictError>)
    ensures r == ParseConfig(data)
  {
    var base := DefaultWatchdog();
    var config := base.(logFile := data.logFile.GetOr(base.logFile),
                        logLevel := data.logLevel.GetOr(base.logLevel),
                        pidFile := data.pidFile.GetOr(base.pidFile),
                        stateFile := data.stateFile.GetOr(base.stateFile),
                        dryRun := data.dryRun.GetOr(base.dryRun),
                        daemon := data.daemon.GetOr(base.daemon));
    ghost var globals := config;

    var sds := data.services.GetOr([]);
    for i := 0 to |sds|
      invariant ParseServices(sds[..i]) == Ok(config.services)
      invariant config == globals.(services := config.services)
    {
      ParseServicesExtend(sds, i);
      var svc := ServiceFromDict(sds[i]);
      if svc.Err? {
        ParseServicesPrefixError(sds, i + 1);
        return Err(svc.error);
      }
      config := config.(services := config.services + [svc.value]);
    }
    assert sds[..|sds|] == sds;

    var nds := data.notifiers.GetOr([]);
    for i := 0 to |nds|
      invariant ParseNotifiers(nds[..i]) == Ok(config.notifiers)
      invariant config == globals.(services := config.services, notifiers := config.notifiers)
      invariant ParseServices(sds) == Ok(config.services)
    {
      ParseNotifiersExtend(nds, i);
      var notif := NotifierFromDict(nds[i]);
      if notif.Err? {
        ParseNotifiersPrefixError(nds, i + 1);
        return Err(notif.error);
      }
      config := config.(notifiers := config.notifiers + [notif.value]);
    }
    assert nds[..|nds|] == nds;
    r := Ok(config);
  }

  // ---------------------------------------------------------------------------------------------
  // Export
  // ---------------------------------------------------------------------------------------------

  /** The keys `to_dict` exports for one service. */
  function ServiceToDict(s: ServiceConfig): ServiceDict {
    ServiceDict(Some(s.name), Some(s.enabled), s.processName, s.pidFile, s.port, s.healthUrl, None,
                s.restartCommand, None, None, None, Some(s.restartDelay), Some(s.maxRestarts), None,
                Some(s.checkInterval), None, None)
  }

  /** The keys `to_dict` exports for one notifier: its type and whether it is enabled. */
  function NotifierToDict(n: NotifierConfig): NotifierDict {
    NotifierDict(Some(n.notifierType), Some(n.enabled), None, None, None, None, None, None, None, None,
                 None, None, None, None, None, None, None, None)
  }

  /** `WatchdogConfig.to_dict`: the global settings, one entry per service and per notifier, in order. */
  function ToDict(c: WatchdogConfig): (d: ConfigDict)
    ensures d.services.Some? && |d.services.value| == |c.services|
    ensures forall i :: 0 <= i < |c.services| ==> d.services.value[i] == ServiceToDict(c.services[i])
    ensures d.notifiers.Some? && |d.notifiers.value| == |c.notifiers|
    ensures forall i :: 0 <= i < |c.notifiers| ==> d.notifiers.value[i] == NotifierToDict(c.notifiers[i])
  {
    ConfigDict(Some(c.logFile), Some(c.logLevel), Some(c.pidFile), Some(c.stateFile), Some(c.dryRun),
               Some(c.daemon),
               Some(seq(|c.services|, i requires 0 <= i < |c.services| => ServiceToDict(c.services[i]))),
               Some(seq(|c.notifiers|, i requires 0 <= i < |c.notifiers| => NotifierToDict(c.notifiers[i]))))
  }

  /** A service after export and re-import: the exported fields survive, the rest are defaults. */
  function Reloaded(s: ServiceConfig): ServiceConfig {
    DefaultService(s.name).(enabled := s.enabled, processName := s.processName, pidFile := s.pidFile,
                            port := s.port, healthUrl := s.healthUrl, restartCommand := s.restartCommand,
                            restartDelay := s.restartDelay, maxRestarts := s.maxRestarts,
                            checkInterval := s.checkInterval)
  }

  /**
   * Loading an exported configuration succeeds and keeps the global settings, the services in
   * order with their exported fields, and the notifiers with their type and enabled flag; every
   * field `to_dict` leaves out comes back as its default.
   */
  lemma {:induction false} ExportThenLoad(c: WatchdogConfig)
    ensures ParseConfig(ToDict(c)).Ok?
    ensures var r := ParseConfig(ToDict(c)).value;
      && r.logFile == c.logFile && r.logLevel == c.logLevel && r.pidFile == c.pidFile
      && r.stateFile == c.stateFile && r.dryRun == c.dryRun && r.daemon == c.daemon
      && |r.services| == |c.services| && |r.notifiers| == |c.notifiers|
      && (forall i :: 0 <= i < |c.services| ==> r.services[i] == Reloaded(c.services[i]))
      && (forall i :: 0 <= i < |c.notifiers| ==>
            r.notifiers[i] == DefaultNotifier(c.notifiers[i].notifierType).(enabled := c.notifiers[i].enabled))
  {
    var d := ToDict(c);
    var sds := d.services.value;
    var nds := d.notifiers.value;
    assert forall i :: 0 <= i < |sds| ==> sds[i].name.Some?;
    assert forall i :: 0 <= i < |nds| ==> nds[i].notifierType.Some?;
    var ss := ParseServices(sds);
    var ns := ParseNotifiers(nds);
    forall i | 0 <= i < |c.services|
      ensures ss.value[i] == Reloaded(c.services[i])
    {
      ServiceExportThenLoad(c.services[i]);
    }
    forall i | 0 <= i < |c.notifiers|
      ensures ns.value[i] == DefaultNotifier(c.notifiers[i].notifierType).(enabled := c.notifiers[i].enabled)
    {
      NotifierExportThenLoad(c.notifiers[i]);
    }
  }

  /** One exported service entry loads back as the service with its unexported fields defaulted. */
  lemma ServiceExportThenLoad(s: ServiceConfig)
    ensures ServiceFromDict(ServiceToDict(s)) == Ok(Reloaded(s))
  {
  }

  /** One exported notifier entry loads back with its type and enabled flag and nothing else. */
  lemma NotifierExportThenLoad(n: NotifierConfig)
    ensures NotifierFromDict(NotifierToDict(n)) == Ok(DefaultNotifier(n.notifierType).(enabled := n.enabled))
  {
  }

  /** Export keeps every detection method, so a re-imported service keeps its detection verdict. */
  lemma ReloadKeepsDetection(s: ServiceConfig)
    ensures HasDetectionMethod(Reloaded(s)) == HasDetectionMethod(s)
    ensures (NoDetectionMethod(s.name) in ServiceErrors(Reloaded(s))) == (NoDetectionMethod(s.name) in ServiceErrors(s))
  {
  }

  /**
   * Export drops the start and stop commands, so a service whose only command is a start command
   * is valid but reloads as lacking a restart or start command.
   */
  lemma ReloadDropsStartCommand(s: ServiceConfig)
    requires s.restartCommand.None? && s.startCommand.Some?
    ensures NoRestartCommand(s.name) !in ServiceErrors(s)
    ensures NoRestartCommand(s.name) in ServiceErrors(Reloaded(s))
    ensures Reloaded(s).startCommand.None? && Reloaded(s).stopCommand.None?
  {
  }

  /** A service entry that gives only its name yields exactly the declared defaults. */
  lemma NameOnlyServiceIsDefault(name: string)
    ensures ServiceFromDict(ServiceDict(Some(name), None, None, None, None, None, None, None, None, None,
                                        None, None, None, None, None, None, None))
            == Ok(DefaultService(name))
  {
  }

  /** A notifier entry that gives only its type yields exactly the declared defaults. */
  lemma TypeOnlyNotifierIsDefault(t: string)
    ensures NotifierFromDict(NotifierDict(Some(t), None, None, None, None, None, None, None, None, None,
                                          None, None, None, None, None, None, None, None))
            == Ok(DefaultNotifier(t))
  {
  }
}
