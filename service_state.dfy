/**
 * The watchdog's runtime record for each service and its persistent snapshot. `to_dict` keeps the
 * counters, timestamps and alert flag of every service but not its last status; `from_dict` reads
 * them back, taking each service's name from its key and defaults for missing keys.
 */
module ServiceStates {
  import opened Wrappers
  import opened Monitor

  /** `ServiceState`: failure streak, restart budget and schedule of one service. */
  datatype ServiceState = ServiceState(
    name: string,
    consecutiveFailures: int,
    restartCount: int,
    restartWindowStart: Option<int>,
    lastCheck: Option<int>,
    lastStatus: Option<ServiceStatus>,
    pendingRestartAt: Option<int>,
    alerted: bool)

  /** A service nothing has happened to yet. */
  function Fresh(name: string): ServiceState {
    ServiceState(name, 0, 0, None, None, None, None, false)
  }

  /** `WatchdogState`: the records by service name and the daemon's start time. */
  datatype WatchdogState = WatchdogState(services: map<string, ServiceState>, startedAt: int)

  /** Every record is filed under its own service name. */
  predicate NamesMatch(services: map<string, ServiceState>) {
    forall n :: n in services ==> services[n].name == n
  }

  /**
   * One service's entry of the snapshot. `None` is a missing key; for the three timestamps a
   * missing key and a null value read back alike, so one `Option` covers both.
   */
  datatype ServiceStateDict = ServiceStateDict(
    consecutiveFailures: Option<int>,
    restartCount: Option<int>,
    restartWindowStart: Option<int>,
    lastCheck: Option<int>,
    pendingRestartAt: Option<int>,
    alerted: Option<bool>)

  datatype StateDict = StateDict(startedAt: Option<int>, services: Option<map<string, ServiceStateDict>>)

  function EntryToDict(s: ServiceState): ServiceStateDict {
    ServiceStateDict(Some(s.consecutiveFailures), Some(s.restartCount), s.restartWindowStart, s.lastCheck,
                     s.pendingRestartAt, Some(s.alerted))
  }

  /** `WatchdogState.to_dict`: one entry per service under the same key, always with every key. */
  function StateToDict(w: WatchdogState): (d: StateDict)
    ensures d.startedAt == Some(w.startedAt) && d.services.Some?
    ensures d.services.value.Keys == w.services.Keys
    ensures forall n :: n in w.services ==>
              var e := d.services.value[n];
              e.consecutiveFailures.Some? && e.restartCount.Some? && e.alerted.Some?
  {
    StateDict(Some(w.startedAt), Some(map n | n in w.services :: EntryToDict(w.services[n])))
  }

  /**
   * `WatchdogState.from_dict` for one entry: each counter or flag is the stored value when its
   * key is present and a fresh record's value when it is missing; the three timestamps are as
   * stored.
   */
  function EntryFromDict(name: string, d: ServiceStateDict): (s: ServiceState)
    ensures s.name == name && s.lastStatus == None
    ensures d.consecutiveFailures.Some? ==> s.consecutiveFailures == d.consecutiveFailures.value
    ensures d.consecutiveFailures.None? ==> s.consecutiveFailures == Fresh(name).consecutiveFailures
    ensures d.restartCount.Some? ==> s.restartCount == d.restartCount.value
    ensures d.restartCount.None? ==> s.restartCount == Fresh(name).restartCount
    ensures d.alerted.Some? ==> s.alerted == d.alerted.value
    ensures d.alerted.None? ==> s.alerted == Fresh(name).alerted
    ensures s.restartWindowStart == d.restartWindowStart && s.lastCheck == d.lastCheck
    ensures s.pendingRestartAt == d.pendingRestartAt
  {
    ServiceState(name, d.consecutiveFailures.GetOr(0), d.restartCount.GetOr(0), d.restartWindowStart,
                 d.lastCheck, None, d.pendingRestartAt, d.alerted.GetOr(false))
  }

  /** `WatchdogState.from_dict`; `now` is the start time used when the snapshot has none. */
  function StateFromDict(d: StateDict, now: int): (w: WatchdogState)
    ensures w.startedAt == d.startedAt.GetOr(now)
    ensures d.services.None? ==> w.services == map[]
    ensures d.services.Some? ==> w.services.Keys == d.services.value.Keys
    ensures NamesMatch(w.services)
  {
    var entries := d.services.GetOr(map[]);
    WatchdogState(map n | n in entries :: EntryFromDict(n, entries[n]), d.startedAt.GetOr(now))
  }

  /** An entry with none of its keys reads back as a fresh record. */
  lemma EmptyEntryIsFresh(name: string)
    ensures EntryFromDict(name, ServiceStateDict(None, None, None, None, None, None)) == Fresh(name)
  {
  }

  /**
   * Saving and loading gives back the start time and, for every service, everything but the
   * last status, which comes back `None`.
   */
  lemma SnapshotRoundTrip(w: WatchdogState, now: int)
    requires NamesMatch(w.services)
    ensures var r := StateFromDict(StateToDict(w), now);
      r.startedAt == w.startedAt
      && r.services.Keys == w.services.Keys
      && forall n :: n in w.services ==> r.services[n] == w.services[n].(lastStatus := None)
  {
    var r := StateFromDict(StateToDict(w), now);
    forall n | n in w.services
      ensures r.services[n] == w.services[n].(lastStatus := None)
    {
      assert r.services[n] == EntryFromDict(n, EntryToDict(w.services[n]));
    }
  }

  /** A second save after a load gives the same snapshot as the first. */
  lemma SnapshotStable(w: WatchdogState, now: int)
    requires NamesMatch(w.services)
    ensures StateToDict(StateFromDict(StateToDict(w), now)) == StateToDict(w)
  {
    SnapshotRoundTrip(w, now);
    var r := StateFromDict(StateToDict(w), now);
    assert StateToDict(r).services.value == StateToDict(w).services.value by {
      forall n | n in w.services
        ensures EntryToDict(r.services[n]) == EntryToDict(w.services[n])
      {
      }
    }
  }
}
