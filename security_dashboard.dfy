// The administrator's security dashboard of src/components/SecurityDashboard.tsx.
//
// Every five seconds (and whenever the refresh counter moves) the dashboard
// copies the security events, the application errors and the CSP violations
// out of their monitors.  From them it derives the 24-hour event statistics,
// the high-priority alert, the rate-limit figures and the three lists it
// shows; its one action unblocks an identifier and bumps the counter.  The
// clock is a parameter.

module SecurityDashboard {
  import opened Common
  import SM = SecurityMonitoring
  import PM = PerformanceMonitoring
  import RL = RateLimiting
  import SH = SecurityHeaders

  const HourMs: int := 60 * 60 * 1000
  /** The default of getRecentEvents' `hours`. */
  const DefaultHours: int := 24
  /** How many entries each list shows. */
  const ListLimit: nat := 20

  /** The badge variants of getSeverityColor. */
  datatype Variant = Destructive | DefaultVariant | Secondary | Outline

  function SeverityVariant(severity: string): Variant
  {
    if severity == "critical" || severity == "high" then Destructive
    else if severity == "medium" then DefaultVariant
    else if severity == "low" then Secondary
    else Outline
  }

  /** Critical and high share the destructive badge, medium and low have one
    * each, and no severity the monitors produce falls through to outline. */
  lemma VariantOfSeverity(s: Severity)
    ensures SeverityVariant(SeverityName(s)) == Destructive <==> Rank(s) >= Rank(High)
    ensures SeverityVariant(SeverityName(s)) == DefaultVariant <==> s == Medium
    ensures SeverityVariant(SeverityName(s)) == Secondary <==> s == Low
    ensures SeverityVariant(SeverityName(s)) != Outline
  {
  }

  lemma UnknownSeverityIsOutline(name: string)
    requires forall s: Severity :: SeverityName(s) != name
    ensures SeverityVariant(name) == Outline
  {
    assert SeverityName(Critical) != name && SeverityName(High) != name;
    assert SeverityName(Medium) != name && SeverityName(Low) != name;
  }

  /** getRecentEvents(hours): the events strictly newer than the cutoff. */
  function RecentEvents(events: seq<SM.Event>, hours: int, now: int): (r: seq<SM.Event>)
    ensures forall e :: e in r <==> e in events && e.timestamp > now - hours * HourMs
    ensures |r| <= |events|
  {
    SM.Recent(events, hours * HourMs, now)
  }

  datatype EventStats = EventStats(total: nat, critical: nat, high: nat, medium: nat, low: nat)

  /** getEventStats, over the default 24 hours. */
  function EventStatsOf(events: seq<SM.Event>, now: int): (st: EventStats)
    ensures st.total == |RecentEvents(events, DefaultHours, now)|
    ensures st.critical == |SM.OfSeverity(RecentEvents(events, DefaultHours, now), Critical)|
    ensures st.high == |SM.OfSeverity(RecentEvents(events, DefaultHours, now), High)|
    ensures st.medium == |SM.OfSeverity(RecentEvents(events, DefaultHours, now), Medium)|
    ensures st.low == |SM.OfSeverity(RecentEvents(events, DefaultHours, now), Low)|
    ensures st.critical + st.high + st.medium + st.low == st.total
  {
    var recent := RecentEvents(events, DefaultHours, now);
    SeverityPartition(recent);
    EventStats(|recent|, |SM.OfSeverity(recent, Critical)|, |SM.OfSeverity(recent, High)|,
               |SM.OfSeverity(recent, Medium)|, |SM.OfSeverity(recent, Low)|)
  }

  /** Every event has one of the four severities, so the four counts add up. */
  lemma {:induction false} SeverityPartition(xs: seq<SM.Event>)
    ensures |SM.OfSeverity(xs, Critical)| + |SM.OfSeverity(xs, High)|
            + |SM.OfSeverity(xs, Medium)| + |SM.OfSeverity(xs, Low)| == |xs|
  {
    if xs != [] {
      SeverityPartition(xs[1..]);
    }
  }

  /** The "high priority events" figure. */
  function HighPriority(st: EventStats): nat
  {
    st.critical + st.high
  }

  /** The condition of the "Security Alert" banner. */
  predicate ShowsAlert(st: EventStats)
  {
    st.critical > 0 || st.high > 0
  }

  /** The banner shows exactly when the high-priority figure is positive,
    * that is when the last 24 hours hold a critical or a high event. */
  lemma AlertIffHighPriority(events: seq<SM.Event>, now: int)
    ensures ShowsAlert(EventStatsOf(events, now)) <==> HighPriority(EventStatsOf(events, now)) > 0
    ensures ShowsAlert(EventStatsOf(events, now)) <==>
              exists e :: e in RecentEvents(events, DefaultHours, now) && Rank(e.severity) >= Rank(High)
  {
    var recent := RecentEvents(events, DefaultHours, now);
    var c := SM.OfSeverity(recent, Critical);
    var h := SM.OfSeverity(recent, High);
    if |c| > 0 {
      assert c[0] in c;
    } else if |h| > 0 {
      assert h[0] in h;
    } else {
      forall e | e in recent
        ensures Rank(e.severity) < Rank(High)
      {
        assert e !in c && e !in h;
      }
    }
  }

  datatype RateLimitStats = RateLimitStats(contactForm: RL.Stats, loginAttempts: RL.Stats, apiRequests: RL.Stats, blocked: nat)

  /** getRateLimitStats. */
  ghost function RateLimitStatsOf(s: RL.Limiter): (r: RateLimitStats)
    ensures r.contactForm == RL.StatsOf(s, "contact_form") && r.loginAttempts == RL.StatsOf(s, "login_attempts")
    ensures r.apiRequests == RL.StatsOf(s, "api_requests") && r.blocked == |s.blocked|
  {
    RateLimitStats(RL.StatsOf(s, "contact_form"), RL.StatsOf(s, "login_attempts"),
                   RL.StatsOf(s, "api_requests"), |s.blocked|)
  }

  /** The "Rate Limit Violations" figure. */
  function DisplayedViolations(r: RateLimitStats): nat
  {
    r.contactForm.violations + r.loginAttempts.violations
  }

  /** The figure counts the contact form and the logins only: API violations
    * never show, and each of the two counted classes adds its own. */
  lemma ViolationsLeaveOutApi(r: RateLimitStats, api: RL.Stats, contact: RL.Stats)
    ensures DisplayedViolations(r.(apiRequests := api)) == DisplayedViolations(r)
    ensures DisplayedViolations(r.(contactForm := contact)) + r.contactForm.violations
            == DisplayedViolations(r) + contact.violations
  {
  }

  // ---------------------------------------------------------------------
  // The three lists

  /** `list.slice(0, 20)`, as the events, errors and CSP tabs are written.
    * Each of these lists is appended at its end, so this shows the oldest. */
  function FirstShown<T>(xs: seq<T>): (r: seq<T>)
    ensures |r| == Min(|xs|, ListLimit) && r == xs[..|r|]
  {
    Take(xs, ListLimit)
  }

  /** Past twenty entries the newest one, the one the tab's "latest events"
    * promise is about, is not shown. */
  lemma NewestNotShown<T>(xs: seq<T>)
    requires |xs| > ListLimit && NoDup(xs)
    ensures xs[|xs| - 1] !in FirstShown(xs)
  {
    var r := FirstShown(xs);
    forall i | 0 <= i < |r|
      ensures r[i] != xs[|xs| - 1]
    {
      assert r[i] == xs[i];
    }
  }

  /** `list.slice(-20)`: the twenty newest entries, oldest first. */
  function LatestShown<T>(xs: seq<T>): (r: seq<T>)
    ensures |r| == Min(|xs|, ListLimit)
    ensures forall j :: |xs| - ListLimit <= j < |xs| && 0 <= j ==> xs[j] in r
    ensures forall x :: x in r ==> x in xs
  {
    var r := SliceLast(xs, ListLimit);
    assert forall j :: |xs| - ListLimit <= j < |xs| && 0 <= j ==> xs[j] == r[j - (|xs| - |r|)];
    r
  }

  /** Up to twenty entries the two slices agree. */
  lemma ShortListsAgree<T>(xs: seq<T>)
    requires |xs| <= ListLimit
    ensures LatestShown(xs) == FirstShown(xs) == xs
  {
  }

  // ---------------------------------------------------------------------
  // The component

  class Dashboard {
    var securityEvents: seq<SM.Event>
    var errors: seq<PM.Report>
    var cspViolations: seq<SH.ViolationRecord>
    var refreshKey: nat

    constructor ()
      ensures securityEvents == [] && errors == [] && cspViolations == [] && refreshKey == 0
    {
      securityEvents := [];
      errors := [];
      cspViolations := [];
      refreshKey := 0;
    }

    /** loadData: copy the three monitors' lists. */
    method LoadData(events: seq<SM.Event>, errorList: seq<PM.Report>, violations: seq<SH.ViolationRecord>)
      modifies this
      ensures securityEvents == events && errors == errorList && cspViolations == violations
      ensures refreshKey == old(refreshKey)
    {
      securityEvents := events;
      errors := errorList;
      cspViolations := violations;
    }

    method Refresh()
      modifies this
      ensures refreshKey == old(refreshKey) + 1
      ensures securityEvents == old(securityEvents) && errors == old(errors) && cspViolations == old(cspViolations)
    {
      refreshKey := refreshKey + 1;
    }

    /** The "Unblock" button: lift the block, forget its hit counts, and refresh. */
    method Unblock(limiter: RL.AdvancedRateLimit, identifier: string)
      requires limiter.Valid()
      modifies this, limiter
      ensures limiter.Valid() && limiter.State() == RL.AfterUnblock(old(limiter.State()), identifier)
      ensures identifier !in limiter.blocked
      ensures refreshKey == old(refreshKey) + 1
      ensures securityEvents == old(securityEvents) && errors == old(errors) && cspViolations == old(cspViolations)
    {
      limiter.UnblockIdentifier(identifier);
      refreshKey := refreshKey + 1;
    }

    method GetEventStats(now: int) returns (st: EventStats)
      ensures st == EventStatsOf(securityEvents, now)
    {
      st := EventStatsOf(securityEvents, now);
    }

    method CriticalErrorCount() returns (n: nat)
      ensures n == |PM.OfSeverity(errors, Critical)| && n <= |errors|
    {
      n := |PM.OfSeverity(errors, Critical)|;
    }

    /** The rows of the events, errors and CSP tabs, as written: the first
      * twenty of each list, which are the oldest ones. */
    method ShownLists() returns (es: seq<SM.Event>, rs: seq<PM.Report>, vs: seq<SH.ViolationRecord>)
      ensures es == FirstShown(securityEvents) && rs == FirstShown(errors) && vs == FirstShown(cspViolations)
    {
      es := FirstShown(securityEvents);
      rs := FirstShown(errors);
      vs := FirstShown(cspViolations);
    }

    /** The rows the tabs evidently mean to show: the twenty newest of each list. */
    method LatestLists() returns (es: seq<SM.Event>, rs: seq<PM.Report>, vs: seq<SH.ViolationRecord>)
      ensures es == LatestShown(securityEvents) && rs == LatestShown(errors) && vs == LatestShown(cspViolations)
    {
      es := LatestShown(securityEvents);
      rs := LatestShown(errors);
      vs := LatestShown(cspViolations);
    }
  }
}
