/**
 * Notification events and the notifier plugins: the per-notifier event filter, the guards every
 * `send` applies before it contacts its transport, the colour and emoji lookups, and the
 * case-insensitive registry the factory creates notifiers from.
 *
 * The transports (Telegram, Slack and webhook over HTTP, e-mail over SMTP) are a `deliver`
 * function telling what the transport did; message text and timestamps formatting are not modelled.
 */
module Notifiers {
  import opened Wrappers
  import opened Config
  import opened Monitor

  // The event types the watchdog emits.
  const FAILURE: string := "failure"
  const RECOVERY: string := "recovery"
  const RESTART: string := "restart"
  const RESTART_FAILED: string := "restart_failed"

  predicate KnownEventType(t: string) {
    t == FAILURE || t == RECOVERY || t == RESTART || t == RESTART_FAILED
  }

  /** The text of an event, kept as the values the watchdog interpolates into it. */
  datatype EventMessage =
    | FailedChecks(failures: int, restartDelay: int)
    | RunningNormally
    | ExceededMaxRestarts(maxRestarts: int)
    | Restarted(restartCount: int)
    | RestartAttemptFailed(reason: ControlMessage, attempt: int, maxRestarts: int)

  /** `NotificationEvent`, with its timestamp as an integer time. */
  datatype NotificationEvent = NotificationEvent(
    eventType: string,
    serviceName: string,
    message: EventMessage,
    status: Option<ServiceStatus>,
    timestamp: int)

  /** The `status` entry of an event's dictionary form. */
  datatype StatusDict = StatusDict(running: bool, pid: Option<int>, error: Option<ProbeError>)

  /** `NotificationEvent.to_dict` (the timestamp is kept as a number, not an ISO string). */
  datatype EventDict = EventDict(
    eventType: string,
    serviceName: string,
    message: EventMessage,
    timestamp: int,
    status: Option<StatusDict>)

  function EventToDict(e: NotificationEvent): (d: EventDict)
    ensures d.eventType == e.eventType && d.serviceName == e.serviceName && d.message == e.message
    ensures d.timestamp == e.timestamp
    ensures d.status.None? <==> e.status.None?
    ensures e.status.Some? ==>
              d.status.value.running == e.status.value.running && d.status.value.pid == e.status.value.pid
              && d.status.value.error == e.status.value.error
  {
    EventDict(e.eventType, e.serviceName, e.message, e.timestamp,
              if e.status.Some? then Some(StatusDict(e.status.value.running, e.status.value.pid, e.status.value.error))
              else None)
  }

  /** What of a status the dictionary form cannot see: its service name and check method. */
  function Forget(s: ServiceStatus): ServiceStatus {
    s.(name := "", checkMethod := Unknown)
  }

  /** Two events have the same dictionary form exactly when they differ at most in what `Forget` drops. */
  lemma EventToDictLosesOnlyNameAndMethod(a: NotificationEvent, b: NotificationEvent)
    ensures EventToDict(a) == EventToDict(b) <==>
              a.(status := None) == b.(status := None) && a.status.None? == b.status.None?
              && (a.status.Some? && b.status.Some? ==> Forget(a.status.value) == Forget(b.status.value))
  {
    if EventToDict(a) == EventToDict(b) && a.status.Some? && b.status.Some? {
      assert EventToDict(a).status.value == EventToDict(b).status.value;
    }
  }

  /** `BaseNotifier.should_notify`: the per-notifier event filter. */
  function ShouldNotify(cfg: NotifierConfig, eventType: string): (r: bool)
    ensures !cfg.enabled ==> !r
    ensures cfg.enabled && eventType == FAILURE ==> r == cfg.onFailure
    ensures cfg.enabled && eventType == RECOVERY ==> r == cfg.onRecovery
    ensures cfg.enabled && (eventType == RESTART || eventType == RESTART_FAILED) ==> r == cfg.onRestart
    ensures cfg.enabled && !KnownEventType(eventType) ==> r
  {
    if !cfg.enabled then false
    else if eventType == FAILURE then cfg.onFailure
    else if eventType == RECOVERY then cfg.onRecovery
    else if eventType == RESTART || eventType == RESTART_FAILED then cfg.onRestart
    else true
  }

  /** A notifier lets an event through only when enabled and, for a known type, subscribed to it. */
  lemma ShouldNotifyCharacterised(cfg: NotifierConfig, eventType: string)
    ensures ShouldNotify(cfg, eventType) <==>
              cfg.enabled
              && (eventType == FAILURE ==> cfg.onFailure)
              && (eventType == RECOVERY ==> cfg.onRecovery)
              && (eventType == RESTART || eventType == RESTART_FAILED ==> cfg.onRestart)
  {
  }

  /** The Slack attachment colour: total, with a grey default for unknown event types. */
  function SlackColor(eventType: string): (c: string)
    ensures c == "danger" <==> eventType == FAILURE || eventType == RESTART_FAILED
    ensures c == "good" <==> eventType == RECOVERY
    ensures c == "warning" <==> eventType == RESTART
    ensures c == "#808080" <==> !KnownEventType(eventType)
  {
    if eventType == FAILURE then "danger"
    else if eventType == RECOVERY then "good"
    else if eventType == RESTART then "warning"
    else if eventType == RESTART_FAILED then "danger"
    else "#808080"
  }

  /**
   * The emoji heading a Telegram message, as `emoji_map` evidently intends it: one per event type,
   * a loudspeaker for unknown ones.
   */
  function TelegramEmoji(eventType: string): (e: string)
    ensures |e| == 1
    ensures e == "\U{1F534}" <==> eventType == FAILURE
    ensures e == "\U{2705}" <==> eventType == RECOVERY
    ensures e == "\U{1F504}" <==> eventType == RESTART
    ensures e == "\U{274C}" <==> eventType == RESTART_FAILED
    ensures e == "\U{1F4E2}" <==> !KnownEventType(eventType)
  {
    if eventType == FAILURE then "\U{1F534}"
    else if eventType == RECOVERY then "\U{2705}"
    else if eventType == RESTART then "\U{1F504}"
    else if eventType == RESTART_FAILED then "\U{274C}"
    else "\U{1F4E2}"
  }

  /**
   * The strings `emoji_map` actually holds: each emoji's UTF-8 bytes read back as Windows-1252,
   * so every one is two to four characters long, and the cross mark has lost a byte.
   */
  function TelegramEmojiAsWritten(eventType: string): (e: string)
    ensures e == "\U{F0}\U{178}\U{201D}\U{B4}" <==> eventType == FAILURE
    ensures e == "\U{E2}\U{153}\U{2026}" <==> eventType == RECOVERY
    ensures e == "\U{F0}\U{178}\U{201D}\U{201E}" <==> eventType == RESTART
    ensures e == "\U{E2}\U{152}" <==> eventType == RESTART_FAILED
    ensures e == "\U{F0}\U{178}\U{201C}\U{A2}" <==> !KnownEventType(eventType)
    ensures 2 <= |e| <= 4
  {
    if eventType == FAILURE then "\U{F0}\U{178}\U{201D}\U{B4}"
    else if eventType == RECOVERY then "\U{E2}\U{153}\U{2026}"
    else if eventType == RESTART then "\U{F0}\U{178}\U{201D}\U{201E}"
    else if eventType == RESTART_FAILED then "\U{E2}\U{152}"
    else "\U{F0}\U{178}\U{201C}\U{A2}"
  }

  type Byte = b: int | 0 <= b < 0x100

  /** The UTF-8 encoding of one character. */
  function Utf8Bytes(c: char): seq<Byte> {
    var n := c as int;
    if n < 0x80 then [n]
    else if n < 0x800 then [0xC0 + n / 0x40, 0x80 + n % 0x40]
    else if n < 0x1_0000 then [0xE0 + n / 0x1000, 0x80 + (n / 0x40) % 0x40, 0x80 + n % 0x40]
    else [0xF0 + n / 0x4_0000, 0x80 + (n / 0x1000) % 0x40, 0x80 + (n / 0x40) % 0x40, 0x80 + n % 0x40]
  }

  /** The character Windows-1252 gives a byte; `None` for its five undefined bytes. */
  function Windows1252(b: Byte): Option<char> {
    match b
    case 0x80 => Some('\U{20AC}')
    case 0x81 => None
    case 0x82 => Some('\U{201A}')
    case 0x83 => Some('\U{192}')
    case 0x84 => Some('\U{201E}')
    case 0x85 => Some('\U{2026}')
    case 0x86 => Some('\U{2020}')
    case 0x87 => Some('\U{2021}')
    case 0x88 => Some('\U{2C6}')
    case 0x89 => Some('\U{2030}')
    case 0x8A => Some('\U{160}')
    case 0x8B => Some('\U{2039}')
    case 0x8C => Some('\U{152}')
    case 0x8D => None
    case 0x8E => Some('\U{17D}')
    case 0x8F => None
    case 0x90 => None
    case 0x91 => Some('\U{2018}')
    case 0x92 => Some('\U{2019}')
    case 0x93 => Some('\U{201C}')
    case 0x94 => Some('\U{201D}')
    case 0x95 => Some('\U{2022}')
    case 0x96 => Some('\U{2013}')
    case 0x97 => Some('\U{2014}')
    case 0x98 => Some('\U{2DC}')
    case 0x99 => Some('\U{2122}')
    case 0x9A => Some('\U{161}')
    case 0x9B => Some('\U{203A}')
    case 0x9C => Some('\U{153}')
    case 0x9D => None
    case 0x9E => Some('\U{17E}')
    case 0x9F => Some('\U{178}')
    case _ => Some(b as char)
  }

  /** Bytes read as Windows-1252 text, dropping the undefined ones. */
  function ReadAsWindows1252(bytes: seq<Byte>): string {
    if bytes == [] then []
    else
      Emit(bytes[0]) + ReadAsWindows1252(bytes[1..])
  }

  /** The text one byte contributes: its character, or nothing for an undefined byte. */
  function Emit(b: Byte): string {
    match Windows1252(b)
    case Some(c) => [c]
    case None => []
  }

  /**
   * Every string of `emoji_map` is the intended emoji encoded as UTF-8 and decoded as
   * Windows-1252, and none of them is the emoji itself.
   */
  lemma TelegramEmojiMisencoded(eventType: string)
    ensures TelegramEmojiAsWritten(eventType) == ReadAsWindows1252(Utf8Bytes(TelegramEmoji(eventType)[0]))
    ensures TelegramEmojiAsWritten(eventType) != TelegramEmoji(eventType)
  {
    if eventType == FAILURE {
      MisreadFailure();
    } else if eventType == RECOVERY {
      MisreadRecovery();
    } else if eventType == RESTART {
      MisreadRestart();
    } else if eventType == RESTART_FAILED {
      MisreadRestartFailed();
    } else {
      MisreadUnknown();
    }
  }

  // The UTF-8 bytes of each emoji, and what they read as in Windows-1252.

  lemma MisreadFailure()
    ensures Utf8Bytes('\U{1F534}') == [0xF0, 0x9F, 0x94, 0xB4]
    ensures ReadAsWindows1252([0xF0, 0x9F, 0x94, 0xB4]) == "\U{F0}\U{178}\U{201D}\U{B4}"
  {
    assert Utf8Bytes('\U{1F534}') == [0xF0, 0x9F, 0x94, 0xB4];
    assert ReadAsWindows1252([0xF0, 0x9F, 0x94, 0xB4]) == "\U{F0}\U{178}\U{201D}\U{B4}" by {
      ReadFour(0xF0, 0x9F, 0x94, 0xB4);
    }
  }

  lemma MisreadRecovery()
    ensures Utf8Bytes('\U{2705}') == [0xE2, 0x9C, 0x85]
    ensures ReadAsWindows1252([0xE2, 0x9C, 0x85]) == "\U{E2}\U{153}\U{2026}"
  {
    assert Utf8Bytes('\U{2705}') == [0xE2, 0x9C, 0x85];
    assert ReadAsWindows1252([0xE2, 0x9C, 0x85]) == "\U{E2}\U{153}\U{2026}" by {
      ReadThree(0xE2, 0x9C, 0x85);
    }
  }

  lemma MisreadRestart()
    ensures Utf8Bytes('\U{1F504}') == [0xF0, 0x9F, 0x94, 0x84]
    ensures ReadAsWindows1252([0xF0, 0x9F, 0x94, 0x84]) == "\U{F0}\U{178}\U{201D}\U{201E}"
  {
    assert Utf8Bytes('\U{1F504}') == [0xF0, 0x9F, 0x94, 0x84];
    assert ReadAsWindows1252([0xF0, 0x9F, 0x94, 0x84]) == "\U{F0}\U{178}\U{201D}\U{201E}" by {
      ReadFour(0xF0, 0x9F, 0x94, 0x84);
    }
  }

  lemma MisreadRestartFailed()
    ensures Utf8Bytes('\U{274C}') == [0xE2, 0x9D, 0x8C]
    ensures ReadAsWindows1252([0xE2, 0x9D, 0x8C]) == "\U{E2}\U{152}"
  {
    assert Utf8Bytes('\U{274C}') == [0xE2, 0x9D, 0x8C];
    assert ReadAsWindows1252([0xE2, 0x9D, 0x8C]) == "\U{E2}\U{152}" by {
      ReadThree(0xE2, 0x9D, 0x8C);
    }
  }

  lemma MisreadUnknown()
    ensures Utf8Bytes('\U{1F4E2}') == [0xF0, 0x9F, 0x93, 0xA2]
    ensures ReadAsWindows1252([0xF0, 0x9F, 0x93, 0xA2]) == "\U{F0}\U{178}\U{201C}\U{A2}"
  {
    assert Utf8Bytes('\U{1F4E2}') == [0xF0, 0x9F, 0x93, 0xA2];
    assert ReadAsWindows1252([0xF0, 0x9F, 0x93, 0xA2]) == "\U{F0}\U{178}\U{201C}\U{A2}" by {
      ReadFour(0xF0, 0x9F, 0x93, 0xA2);
    }
  }

  /** Three bytes read as Windows-1252, byte by byte. */
  lemma ReadThree(a: Byte, b: Byte, c: Byte)
    ensures ReadAsWindows1252([a, b, c]) == Emit(a) + Emit(b) + Emit(c)
  {
    assert ReadAsWindows1252([c]) == Emit(c) by {
      assert [c][1..] == [];
      assert Emit(c) + [] == Emit(c);
    }
    assert ReadAsWindows1252([b, c]) == Emit(b) + Emit(c) by {
      assert [b, c][1..] == [c];
    }
    assert [a, b, c][1..] == [b, c];
  }

  /** Four bytes read as Windows-1252, byte by byte. */
  lemma ReadFour(a: Byte, b: Byte, c: Byte, d: Byte)
    ensures ReadAsWindows1252([a, b, c, d]) == Emit(a) + Emit(b) + Emit(c) + Emit(d)
  {
    assert [a, b, c, d][1..] == [b, c, d];
    ReadThree(b, c, d);
  }

  // ---------------------------------------------------------------------------------------------
  // Notifiers and their send guards
  // ---------------------------------------------------------------------------------------------

  datatype NotifierKind = Telegram | Slack | Email | Webhook

  /** A notifier instance: its plugin class and its configuration. */
  datatype Notifier = Notifier(kind: NotifierKind, config: NotifierConfig)

  /** The settings a notifier needs before it can contact its transport. */
  predicate HasRequiredSettings(n: Notifier) {
    match n.kind
    case Telegram => IsSet(n.config.botToken) && IsSet(n.config.chatId)
    case Slack => IsSet(n.config.webhookUrl)
    case Email => IsSet(n.config.smtpHost) && IsSet(n.config.fromAddr) && |n.config.toAddrs| > 0
    case Webhook => IsSet(n.config.url)
  }

  /** Whether `send` gets past both guards and contacts the transport. */
  predicate Contacts(n: Notifier, e: NotificationEvent) {
    ShouldNotify(n.config, e.eventType) && HasRequiredSettings(n)
  }

  /**
   * What the transport did: answered with a status code (for SMTP, any value: the mail went out),
   * raised a `requests` or SMTP error, or raised some other exception.
   */
  datatype TransportOutcome = Delivered(statusCode: int) | TransportError(detail: string) | TransportCrashed(detail: string)

  type Transport = (Notifier, NotificationEvent) -> TransportOutcome

  datatype SendMessage =
    | Skipped                                   // disabled for this event type
    | SettingsRequired(kind: NotifierKind)      // a required setting is missing
    | Sent(kind: NotifierKind, statusCode: int)
    | SendError(kind: NotifierKind, detail: string)

  /** `send` either returns `(success, message)` or lets an exception escape. */
  datatype SendOutcome = Returned(ok: bool, message: SendMessage) | Raised(detail: string)

  /** `raise_for_status` raises for client and server errors. */
  predicate ErrorStatus(code: int) {
    400 <= code < 600
  }

  /** Whether the transport's answer counts as a successful delivery for this kind of notifier. */
  predicate Accepted(kind: NotifierKind, outcome: TransportOutcome) {
    outcome.Delivered? && (kind == Email || !ErrorStatus(outcome.statusCode))
  }

  /** The transport step of `send`, once both guards have passed. */
  function Transmit(kind: NotifierKind, outcome: TransportOutcome): SendOutcome {
    match outcome
    case Delivered(code) =>
      if kind != Email && ErrorStatus(code) then Returned(false, SendError(kind, "HTTP error status"))
      else Returned(true, Sent(kind, code))
    case TransportError(detail) => Returned(false, SendError(kind, detail))
    case TransportCrashed(detail) =>
      // the e-mail notifier catches every exception; the HTTP ones only `requests` errors
      if kind == Email then Returned(false, SendError(kind, detail)) else Raised(detail)
  }

  /** `send` of every notifier kind. */
  function Send(n: Notifier, e: NotificationEvent, deliver: Transport): (r: SendOutcome)
    ensures !ShouldNotify(n.config, e.eventType) ==> r == Returned(true, Skipped)
    ensures ShouldNotify(n.config, e.eventType) && !HasRequiredSettings(n) ==>
              r == Returned(false, SettingsRequired(n.kind))
    ensures Contacts(n, e) ==> (r.Returned? && r.ok <==> Accepted(n.kind, deliver(n, e)))
    ensures r.Raised? ==> Contacts(n, e) && n.kind != Email && deliver(n, e).TransportCrashed?
  {
    if !ShouldNotify(n.config, e.eventType) then Returned(true, Skipped)
    else if !HasRequiredSettings(n) then Returned(false, SettingsRequired(n.kind))
    else Transmit(n.kind, deliver(n, e))
  }

  /** A send that stops at a guard does not depend on the transport at all. */
  lemma GuardedSendIgnoresTransport(n: Notifier, e: NotificationEvent, d1: Transport, d2: Transport)
    requires !Contacts(n, e)
    ensures Send(n, e, d1) == Send(n, e, d2)
    ensures Send(n, e, d1).Returned? && (Send(n, e, d1).ok <==> !ShouldNotify(n.config, e.eventType))
  {
  }

  // ---------------------------------------------------------------------------------------------
  // The notifier registry
  // ---------------------------------------------------------------------------------------------

  /** ASCII lower-casing, as `str.lower` acts on the registry's tags. */
  function Lower(s: string): (r: string)
    ensures |r| == |s|
    ensures forall i :: 0 <= i < |s| ==> r[i] == LowerChar(s[i])
  {
    if s == [] then [] else [LowerChar(s[0])] + Lower(s[1..])
  }

  function LowerChar(c: char): (d: char)
    ensures 'A' <= c <= 'Z' ==> 'a' <= d <= 'z'
    ensures !('A' <= c <= 'Z') ==> d == c
  {
    if 'A' <= c <= 'Z' then (c as int - 'A' as int + 'a' as int) as char else c
  }

  /** Lower-casing twice is lower-casing once, so registered tags are found in any case. */
  lemma LowerIdempotent(s: string)
    ensures Lower(Lower(s)) == Lower(s)
  {
    assert forall i :: 0 <= i < |s| ==> LowerChar(LowerChar(s[i])) == LowerChar(s[i]);
  }

  function DefaultRegistry(): map<string, NotifierKind> {
    map["telegram" := Telegram, "slack" := Slack, "email" := Email, "webhook" := Webhook]
  }

  datatype FactoryError = UnknownNotifierType(notifierType: string)

  /** `NotifierFactory` and its class-level table of notifier kinds by lower-case tag. */
  class NotifierFactory {
    var registry: map<string, NotifierKind>

    constructor ()
      ensures registry == DefaultRegistry()
    {
      registry := DefaultRegistry();
    }

    /** `create`: the notifier of the configured type, compared case-insensitively. */
    function Create(cfg: NotifierConfig): (r: Result<Notifier, FactoryError>)
      reads this
      ensures r.Ok? <==> Lower(cfg.notifierType) in registry
      ensures r.Ok? ==> r.value == Notifier(registry[Lower(cfg.notifierType)], cfg)
      ensures r.Err? ==> r.error == UnknownNotifierType(cfg.notifierType)
    {
      var tag := Lower(cfg.notifierType);
      if tag in registry then Ok(Notifier(registry[tag], cfg)) else Err(UnknownNotifierType(cfg.notifierType))
    }

    /**
     * `register`: store a kind under the lower-cased name, replacing any earlier entry. Afterwards
     * every type equal to `name` up to case creates a notifier of that kind, and every other type
     * creates what it created before.
     */
    method Register(name: string, kind: NotifierKind)
      modifies this
      ensures registry == old(registry)[Lower(name) := kind]
      ensures forall cfg: NotifierConfig :: Lower(cfg.notifierType) == Lower(name) ==> Create(cfg) == Ok(Notifier(kind, cfg))
      ensures forall cfg: NotifierConfig :: Lower(cfg.notifierType) != Lower(name) ==> Create(cfg) == old(Create(cfg))
    {
      registry := registry[Lower(name) := kind];
    }
  }

  /** The built-in tags are found whatever their case, and nothing else is. */
  lemma DefaultRegistryLookup(t: string)
    ensures Lower(t) in DefaultRegistry() <==>
              Lower(t) == "telegram" || Lower(t) == "slack" || Lower(t) == "email" || Lower(t) == "webhook"
    ensures Lower(t) == "telegram" ==> DefaultRegistry()[Lower(t)] == Telegram
    ensures Lower(t) == "slack" ==> DefaultRegistry()[Lower(t)] == Slack
    ensures Lower(t) == "email" ==> DefaultRegistry()[Lower(t)] == Email
    ensures Lower(t) == "webhook" ==> DefaultRegistry()[Lower(t)] == Webhook
  {
  }
}
