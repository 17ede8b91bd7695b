// The client-side security event log of src/utils/security-monitoring.ts.
//
// The monitor keeps the events of the page in memory, mirrors them into
// local storage ("persisted"), and hands alerts to the registered callbacks
// ("delivered", one record per callback invocation).  Time, event ids and the
// page path are parameters; the browser listeners that call the report
// helpers are not part of this model.

module SecurityMonitoring {
  import opened Common

  const DayMs: int := 24 * 60 * 60 * 1000
  /** The window performSecurityChecks looks back over. */
  const ChecksWindowMs: int := 5 * 60 * 1000
  const InvalidInputKeep: nat := 100

  datatype EventType =
    | FailedLogin | SuspiciousActivity | RateLimitExceeded | InvalidInput | XssAttempt
    | SqlInjectionAttempt | CsrfAttempt | UnauthorizedAccess | DataBreachAttempt
    | MalwareDetected | UnusualLocation | MultipleFailedAttempts | SessionHijackAttempt
    | PrivilegeEscalationAttempt

  /** A value in an event's details record. */
  datatype Value = Str(s: string) | Num(n: int)

  type Details = map<string, Value>

  datatype Event = Event(
    id: string, eventType: EventType, severity: Severity, timestamp: int,
    userId: Option<string>, sessionId: string, details: Details, page: string)

  datatype Thresholds = Thresholds(failedLogins: nat, suspiciousActivity: nat, rateLimitViolations: nat)
  datatype Retention = Retention(days: nat, maxEvents: nat)

  datatype Config = Config(
    enabled: bool, logLevel: Severity, realTimeAlerts: bool, maxEventsPerSession: nat,
    alertThresholds: Thresholds, retention: Retention)

  /** A Partial<SecurityConfig>: None is a key the update does not mention. */
  datatype ConfigUpdate = ConfigUpdate(
    enabled: Option<bool>, logLevel: Option<Severity>, realTimeAlerts: Option<bool>,
    maxEventsPerSession: Option<nat>, alertThresholds: Option<Thresholds>, retention: Option<Retention>)

  /** One invocation of an alert callback (callbacks are named by registration number). */
  datatype Delivery = Delivery(callback: nat, event: Event)

  datatype Monitor = Monitor(
    config: Config, events: seq<Event>, sessionId: string, callbacks: seq<nat>,
    persisted: Option<seq<Event>>, delivered: seq<Delivery>)

  function DefaultConfig(): Config
  {
    Config(true, Medium, true, 1000, Thresholds(5, 3, 10), Retention(30, 10000))
  }

  /** `{ ...config, ...updates }`: nested records are replaced whole. */
  function Merge(c: Config, u: ConfigUpdate): (r: Config)
    ensures u.enabled.Some? ==> r.enabled == u.enabled.value
    ensures u.enabled.None? ==> r.enabled == c.enabled
    ensures u.logLevel.Some? ==> r.logLevel == u.logLevel.value
    ensures u.logLevel.None? ==> r.logLevel == c.logLevel
    ensures u.realTimeAlerts.Some? ==> r.realTimeAlerts == u.realTimeAlerts.value
    ensures u.realTimeAlerts.None? ==> r.realTimeAlerts == c.realTimeAlerts
    ensures u.maxEventsPerSession.Some? ==> r.maxEventsPerSession == u.maxEventsPerSession.value
    ensures u.maxEventsPerSession.None? ==> r.maxEventsPerSession == c.maxEventsPerSession
    ensures u.alertThresholds.Some? ==> r.alertThresholds == u.alertThresholds.value
    ensures u.alertThresholds.None? ==> r.alertThresholds == c.alertThresholds
    ensures u.retention.Some? ==> r.retention == u.retention.value
    ensures u.retention.None? ==> r.retention == c.retention
  {
    Config(
      UnwrapOr(u.enabled, c.enabled), UnwrapOr(u.logLevel, c.logLevel),
      UnwrapOr(u.realTimeAlerts, c.realTimeAlerts), UnwrapOr(u.maxEventsPerSession, c.maxEventsPerSession),
      UnwrapOr(u.alertThresholds, c.alertThresholds), UnwrapOr(u.retention, c.retention))
  }

  /** shouldAlert: the event is at least as severe as the configured level. */
  predicate ShouldAlert(severity: Severity, logLevel: Severity)
  {
    Rank(severity) >= Rank(logLevel)
  }

  lemma ShouldAlertMonotone(a: Severity, b: Severity, logLevel: Severity)
    requires ShouldAlert(a, logLevel) && Rank(a) <= Rank(b)
    ensures ShouldAlert(b, logLevel)
  {
  }

  /** Critical events always alert; low ones only when the level is low. */
  lemma ShouldAlertExtremes(logLevel: Severity)
    ensures ShouldAlert(Critical, logLevel)
    ensures ShouldAlert(Low, logLevel) <==> logLevel == Low
  {
  }

  function Deliveries(callbacks: seq<nat>, e: Event): (r: seq<Delivery>)
  {
    seq(|callbacks|, i requires 0 <= i < |callbacks| => Delivery(callbacks[i], e))
  }

  function OfSession(events: seq<Event>, sessionId: string): seq<Event>
  {
    Filter(events, (e: Event) => e.sessionId == sessionId)
  }

  function OfType(events: seq<Event>, t: EventType): seq<Event>
  {
    Filter(events, (e: Event) => e.eventType == t)
  }

  function OfSeverity(events: seq<Event>, s: Severity): seq<Event>
  {
    Filter(events, (e: Event) => e.severity == s)
  }

  /** getRecentEvents(window): the events strictly newer than `now - window`. */
  function Recent(events: seq<Event>, windowMs: int, now: int): seq<Event>
  {
    Filter(events, (e: Event) => e.timestamp > now - windowMs)
  }

  function NewEvent(m: Monitor, t: EventType, severity: Severity, details: Details,
                    userId: Option<string>, id: string, now: int, page: string): Event
  {
    Event(id, t, severity, now, userId, m.sessionId, details, page)
  }

  /** logEvent: the event is always kept in memory once logging is enabled, but
    * past the per-session cap it is neither persisted nor alerted. */
  function AfterLog(m: Monitor, e: Event): (r: Monitor)
    ensures r.config == m.config && r.sessionId == m.sessionId && r.callbacks == m.callbacks
  {
    if !m.config.enabled then m
    else
      var events := m.events + [e];
      if |OfSession(events, m.sessionId)| > m.config.maxEventsPerSession then m.(events := events)
      else
        var m1 := m.(events := events, persisted := Some(events));
        if m.config.realTimeAlerts && ShouldAlert(e.severity, m.config.logLevel)
        then m1.(delivered := m.delivered + Deliveries(m.callbacks, e))
        else m1
  }

  /** cleanupOldEvents: drop events older than the retention period, then keep the newest
    * maxEvents (`slice(-0)` keeps everything, so a zero maximum keeps all). */
  function Retained(events: seq<Event>, retention: Retention, now: int): seq<Event>
  {
    var kept := Recent(events, retention.days * DayMs, now);
    if |kept| > retention.maxEvents then SliceLast(kept, retention.maxEvents) else kept
  }

  function AfterCleanup(m: Monitor, now: int): Monitor
  {
    var kept := Retained(m.events, m.config.retention, now);
    m.(events := kept, persisted := Some(kept))
  }

  function FailedAlarm(m: Monitor, count: nat, id: string, now: int, page: string): Event
  {
    NewEvent(m, MultipleFailedAttempts, High,
             map["attemptCount" := Num(count), "timeWindow" := Str("5_minutes")], None, id, now, page)
  }

  function ClusterAlarm(m: Monitor, count: nat, id: string, now: int, page: string): Event
  {
    NewEvent(m, SuspiciousActivity, Critical,
             map["reason" := Str("activity_cluster"), "eventCount" := Num(count)], None, id, now, page)
  }

  /** performSecurityChecks: both counts are taken from the events of the last five
    * minutes as they were before either alarm is logged. */
  function AfterChecks(m: Monitor, now: int, failedId: string, clusterId: string, page: string): Monitor
  {
    var recent := Recent(m.events, ChecksWindowMs, now);
    var failed := |OfType(recent, FailedLogin)|;
    var suspicious := |OfType(recent, SuspiciousActivity)|;
    var m1 := if failed >= m.config.alertThresholds.failedLogins
              then AfterLog(m, FailedAlarm(m, failed, failedId, now, page)) else m;
    if suspicious >= m.config.alertThresholds.suspiciousActivity
    then AfterLog(m1, ClusterAlarm(m, suspicious, clusterId, now, page)) else m1
  }

  // Details records of the report helpers.

  function FailedLoginDetails(reason: Option<string>): Details
  {
    map["reason" := Str(if reason.Some? && reason.value != "" then reason.value else "invalid_credentials")]
  }

  /** `{ reason, ...details }`: a `reason` inside the details wins. */
  function SuspiciousDetails(reason: string, details: Details): Details
  {
    map["reason" := Str(reason)] + details
  }

  function RateLimitDetails(endpoint: string, limit: int): Details
  {
    map["endpoint" := Str(endpoint), "limit" := Num(limit)]
  }

  function InvalidInputDetails(field: string, value: Option<string>, reason: string): (r: Details)
    ensures "value" in r ==> r["value"].Str? && |r["value"].s| <= InvalidInputKeep
    ensures "value" in r <==> value.Some?
  {
    var base := map["field" := Str(field), "valueLength" := Num(if value.Some? then |value.value| else 0), "reason" := Str(reason)];
    if value.Some? then base["value" := Str(Take(value.value, InvalidInputKeep))] else base
  }

  // ---------------------------------------------------------------------
  // Properties

  /** Alerts go out exactly when the event is within the session cap, alerts are on and
    * its severity reaches the configured level; then every callback gets it, in order. */
  lemma AlertIff(m: Monitor, e: Event)
    requires m.config.enabled && e.sessionId == m.sessionId
    ensures var r := AfterLog(m, e);
      var alerted := |OfSession(m.events, m.sessionId)| + 1 <= m.config.maxEventsPerSession
                     && m.config.realTimeAlerts && ShouldAlert(e.severity, m.config.logLevel);
      && r.events == m.events + [e]
      && (alerted ==> r.delivered == m.delivered + Deliveries(m.callbacks, e))
      && (!alerted ==> r.delivered == m.delivered)
      && r.persisted == (if |OfSession(m.events, m.sessionId)| + 1 <= m.config.maxEventsPerSession
                         then Some(m.events + [e]) else m.persisted)
  {
    FilterAppend(m.events, [e], (x: Event) => x.sessionId == m.sessionId);
  }

  lemma DeliveriesInOrder(callbacks: seq<nat>, e: Event)
    ensures |Deliveries(callbacks, e)| == |callbacks|
    ensures forall i | 0 <= i < |callbacks| :: Deliveries(callbacks, e)[i] == Delivery(callbacks[i], e)
  {
  }

  /** Retention keeps only events newer than the cutoff, and of those the newest
    * ones: at most maxEvents of them when that is positive, all of them when it is zero. */
  lemma RetentionBounds(events: seq<Event>, retention: Retention, now: int)
    ensures var r := Retained(events, retention, now);
      var kept := Recent(events, retention.days * DayMs, now);
      && (forall i | 0 <= i < |r| :: r[i].timestamp > now - retention.days * DayMs)
      && r == kept[|kept| - |r|..]
      && (retention.maxEvents > 0 ==> |r| == Min(|kept|, retention.maxEvents))
      && (retention.maxEvents == 0 ==> r == kept)
  {
  }

  /** The periodic check appends one alarm for a burst of failed logins and one for a
    * cluster of suspicious activity, each exactly when its count reaches its threshold. */
  lemma {:induction false} ChecksRaiseAlarms(m: Monitor, now: int, failedId: string, clusterId: string, page: string)
    requires m.config.enabled
    ensures var recent := Recent(m.events, ChecksWindowMs, now);
      var failed := |OfType(recent, FailedLogin)|;
      var suspicious := |OfType(recent, SuspiciousActivity)|;
      var first := if failed >= m.config.alertThresholds.failedLogins
                   then [FailedAlarm(m, failed, failedId, now, page)] else [];
      var second := if suspicious >= m.config.alertThresholds.suspiciousActivity
                    then [ClusterAlarm(m, suspicious, clusterId, now, page)] else [];
      AfterChecks(m, now, failedId, clusterId, page).events == m.events + first + second
  {
    var recent := Recent(m.events, ChecksWindowMs, now);
    var failed := |OfType(recent, FailedLogin)|;
    var suspicious := |OfType(recent, SuspiciousActivity)|;
    var m1 := if failed >= m.config.alertThresholds.failedLogins
              then AfterLog(m, FailedAlarm(m, failed, failedId, now, page)) else m;
    assert m1.events == m.events + (if failed >= m.config.alertThresholds.failedLogins
                   then [FailedAlarm(m, failed, failedId, now, page)] else []);
    assert m1.config == m.config;
  }

  /** Every event is counted under exactly one of "of this type" and "not of this type". */
  lemma {:induction false} TypeCountsSplit(events: seq<Event>, t: EventType)
    ensures |OfType(events, t)| + |Filter(events, (e: Event) => e.eventType != t)| == |events|
  {
    if events != [] {
      TypeCountsSplit(events[1..], t);
    }
  }

  // ---------------------------------------------------------------------
  // The monitor object

  class SecurityMonitor {
    var config: Config
    var events: seq<Event>
    const sessionId: string
    var callbacks: seq<nat>
    /** The copy in local storage under "security_events". */
    var persisted: Option<seq<Event>>
    var delivered: seq<Delivery>

    function State(): Monitor
      reads this
    {
      Monitor(config, events, sessionId, callbacks, persisted, delivered)
    }

    /** Construction loads the stored events that are still within the retention period
      * (nothing when storage is empty or unreadable). */
    constructor (sessionId: string, storage: Option<seq<Event>>, now: int)
      ensures this.sessionId == sessionId && config == DefaultConfig()
      ensures events == (if storage.Some? then Recent(storage.value, DefaultConfig().retention.days * DayMs, now) else [])
      ensures callbacks == [] && delivered == [] && persisted == storage
    {
      this.sessionId := sessionId;
      config := DefaultConfig();
      callbacks := [];
      delivered := [];
      persisted := storage;
      events := if storage.Some? then Recent(storage.value, DefaultConfig().retention.days * DayMs, now) else [];
    }

    method TriggerAlert(e: Event)
      modifies this
      ensures delivered == old(delivered) + Deliveries(callbacks, e)
      ensures config == old(config) && events == old(events) && callbacks == old(callbacks) && persisted == old(persisted)
    {
      var i := 0;
      while i < |callbacks|
        invariant 0 <= i <= |callbacks|
        invariant delivered == old(delivered) + Deliveries(callbacks[..i], e)
        invariant config == old(config) && events == old(events) && callbacks == old(callbacks) && persisted == old(persisted)
      {
        // a callback that throws is caught, and the next one still runs
        delivered := delivered + [Delivery(callbacks[i], e)];
        assert Deliveries(callbacks[..i + 1], e) == Deliveries(callbacks[..i], e) + [Delivery(callbacks[i], e)];
        i := i + 1;
      }
      assert callbacks[..i] == callbacks;
    }

    method LogEvent(t: EventType, severity: Severity, details: Details, userId: Option<string>,
                    id: string, now: int, page: string)
      modifies this
      ensures State() == AfterLog(old(State()), NewEvent(old(State()), t, severity, details, userId, id, now, page))
    {
      if !config.enabled {
        return;
      }
      var e := Event(id, t, severity, now, userId, sessionId, details, page);
      events := events + [e];
      if |OfSession(events, sessionId)| > config.maxEventsPerSession {
        return;
      }
      persisted := Some(events);
      if config.realTimeAlerts && ShouldAlert(severity, config.logLevel) {
        TriggerAlert(e);
      }
    }

    method PerformSecurityChecks(now: int, failedId: string, clusterId: string, page: string)
      modifies this
      ensures State() == AfterChecks(old(State()), now, failedId, clusterId, page)
    {
      var recent := Recent(events, ChecksWindowMs, now);
      var failed := |OfType(recent, FailedLogin)|;
      if failed >= config.alertThresholds.failedLogins {
        LogEvent(MultipleFailedAttempts, High,
                 map["attemptCount" := Num(failed), "timeWindow" := Str("5_minutes")], None, failedId, now, page);
      }
      var suspicious := |OfType(recent, SuspiciousActivity)|;
      if suspicious >= config.alertThresholds.suspiciousActivity {
        LogEvent(SuspiciousActivity, Critical,
                 map["reason" := Str("activity_cluster"), "eventCount" := Num(suspicious)], None, clusterId, now, page);
      }
    }

    method CleanupOldEvents(now: int)
      modifies this
      ensures State() == AfterCleanup(old(State()), now)
    {
      var kept := Recent(events, config.retention.days * DayMs, now);
      if |kept| > config.retention.maxEvents {
        kept := SliceLast(kept, config.retention.maxEvents);
      }
      events := kept;
      persisted := Some(events);
    }

    method GetRecentEvents(windowMs: int, now: int) returns (r: seq<Event>)
      ensures r == Recent(events, windowMs, now)
    {
      r := Recent(events, windowMs, now);
    }

    method GetAllEvents() returns (r: seq<Event>)
      ensures r == events
    {
      r := events;
    }

    method GetEventsByType(t: EventType) returns (r: seq<Event>)
      ensures r == OfType(events, t)
    {
      r := OfType(events, t);
    }

    method GetEventsBySeverity(s: Severity) returns (r: seq<Event>)
      ensures r == OfSeverity(events, s)
    {
      r := OfSeverity(events, s);
    }

    method OnAlert(callback: nat)
      modifies this
      ensures callbacks == old(callbacks) + [callback]
      ensures config == old(config) && events == old(events) && persisted == old(persisted) && delivered == old(delivered)
    {
      callbacks := callbacks + [callback];
    }

    method UpdateConfig(updates: ConfigUpdate)
      modifies this
      ensures config == Merge(old(config), updates)
      ensures events == old(events) && callbacks == old(callbacks) && persisted == old(persisted) && delivered == old(delivered)
    {
      config := Merge(config, updates);
    }

    method GetConfig() returns (c: Config)
      ensures c == config
    {
      c := config;
    }

    method ReportFailedLogin(userId: Option<string>, reason: Option<string>, id: string, now: int, page: string)
      modifies this
      ensures State() == AfterLog(old(State()),
        NewEvent(old(State()), FailedLogin, Medium, FailedLoginDetails(reason), userId, id, now, page))
    {
      LogEvent(FailedLogin, Medium, FailedLoginDetails(reason), userId, id, now, page);
    }

    method ReportSuspiciousActivity(reason: string, details: Details, id: string, now: int, page: string)
      modifies this
      ensures State() == AfterLog(old(State()),
        NewEvent(old(State()), SuspiciousActivity, High, SuspiciousDetails(reason, details), None, id, now, page))
    {
      LogEvent(SuspiciousActivity, High, SuspiciousDetails(reason, details), None, id, now, page);
    }

    method ReportRateLimitExceeded(endpoint: string, limit: int, id: string, now: int, page: string)
      modifies this
      ensures State() == AfterLog(old(State()),
        NewEvent(old(State()), RateLimitExceeded, Medium, RateLimitDetails(endpoint, limit), None, id, now, page))
    {
      LogEvent(RateLimitExceeded, Medium, RateLimitDetails(endpoint, limit), None, id, now, page);
    }

    method ReportInvalidInput(field: string, value: Option<string>, reason: string, id: string, now: int, page: string)
      modifies this
      ensures State() == AfterLog(old(State()),
        NewEvent(old(State()), InvalidInput, Low, InvalidInputDetails(field, value, reason), None, id, now, page))
    {
      LogEvent(InvalidInput, Low, InvalidInputDetails(field, value, reason), None, id, now, page);
    }
  }
}
