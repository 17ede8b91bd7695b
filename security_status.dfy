// The floating security status indicator of src/components/SecurityStatusIndicator.tsx.
//
// Every thirty seconds (and once on mount) the indicator classifies the last
// hour of security events together with the application errors into secure,
// warning or critical, and records how many events the hour held.  Its
// details panel counts events, critical and high events, errors, the last
// ten threat alerts and the quarantined sessions.  The monitors it reads are
// passed in as their lists; the clock is a parameter.

module SecurityStatus {
  import opened Common
  import SM = SecurityMonitoring
  import PM = PerformanceMonitoring
  import TI = ThreatIntelligence

  const HourMs: int := 60 * 60 * 1000
  /** The details panel counts at most this many threat alerts. */
  const ThreatWindow: nat := 10

  datatype Status = Secure | Warning | CriticalStatus

  /** The order of the three outcomes. */
  function StatusRank(s: Status): nat
  {
    match s
    case Secure => 0
    case Warning => 1
    case CriticalStatus => 2
  }

  predicate HasCriticalEvent(recent: seq<SM.Event>)
  {
    exists e :: e in recent && e.severity == Critical
  }

  predicate HasCriticalError(errors: seq<PM.Report>)
  {
    exists r :: r in errors && r.severity == Critical
  }

  /** The if-chain of updateStatus over the last hour's events and the errors. */
  function Classify(recent: seq<SM.Event>, errors: seq<PM.Report>): Status
  {
    if |SM.OfSeverity(recent, Critical)| > 0 || |PM.OfSeverity(errors, Critical)| > 0 then CriticalStatus
    else if |SM.OfSeverity(recent, High)| > 2 || |recent| > 10 then Warning
    else Secure
  }

  lemma NonEmptyFilter<T(!new)>(xs: seq<T>, keep: T -> bool)
    ensures |Filter(xs, keep)| > 0 <==> exists x :: x in xs && keep(x)
  {
    if |Filter(xs, keep)| > 0 {
      assert Filter(xs, keep)[0] in Filter(xs, keep);
    }
  }

  /** Critical exactly when the hour holds a critical event or there is any
    * critical application error; otherwise warning exactly when the hour holds
    * more than two high events or more than ten events; otherwise secure. */
  lemma ClassifyRules(recent: seq<SM.Event>, errors: seq<PM.Report>)
    ensures Classify(recent, errors) == CriticalStatus <==> HasCriticalEvent(recent) || HasCriticalError(errors)
    ensures Classify(recent, errors) == Warning <==>
              !HasCriticalEvent(recent) && !HasCriticalError(errors)
              && (|SM.OfSeverity(recent, High)| > 2 || |recent| > 10)
    ensures Classify(recent, errors) == Secure <==>
              !HasCriticalEvent(recent) && !HasCriticalError(errors)
              && |SM.OfSeverity(recent, High)| <= 2 && |recent| <= 10
  {
    NonEmptyFilter(recent, (e: SM.Event) => e.severity == Critical);
    NonEmptyFilter(errors, (r: PM.Report) => r.severity == Critical);
  }

  /** A quiet hour without critical errors is secure. */
  lemma QuietIsSecure(recent: seq<SM.Event>, errors: seq<PM.Report>)
    requires |recent| <= 2
    requires forall e :: e in recent ==> e.severity != Critical
    requires forall r :: r in errors ==> r.severity != Critical
    ensures Classify(recent, errors) == Secure
  {
    ClassifyRules(recent, errors);
  }

  /** One more event in the hour never lowers the status. */
  lemma MoreEventsNeverCalmer(recent: seq<SM.Event>, e: SM.Event, errors: seq<PM.Report>)
    ensures StatusRank(Classify(recent + [e], errors)) >= StatusRank(Classify(recent, errors))
  {
    FilterAppend(recent, [e], (x: SM.Event) => x.severity == Critical);
    FilterAppend(recent, [e], (x: SM.Event) => x.severity == High);
  }

  /** getStatusColor and getStatusText. */
  function StatusVariant(s: Status): string
  {
    match s
    case CriticalStatus => "destructive"
    case Warning => "default"
    case Secure => "secondary"
  }

  function StatusText(s: Status): string
  {
    match s
    case CriticalStatus => "Critical"
    case Warning => "Warning"
    case Secure => "Secure"
  }

  /** The badge tells the three outcomes apart, by colour and by text. */
  lemma BadgeDistinguishes(a: Status, b: Status)
    requires a != b
    ensures StatusVariant(a) != StatusVariant(b) && StatusText(a) != StatusText(b)
  {
  }

  datatype Detailed = Detailed(events: nat, critical: nat, high: nat, errors: nat, threats: nat, quarantined: nat)

  /** getDetailedStatus. */
  function DetailedStatus(events: seq<SM.Event>, errors: seq<PM.Report>, alerts: seq<TI.Alert>,
                          quarantined: seq<string>, now: int): (d: Detailed)
    ensures d.events == |SM.Recent(events, HourMs, now)|
    ensures d.critical == |SM.OfSeverity(SM.Recent(events, HourMs, now), Critical)|
    ensures d.high == |SM.OfSeverity(SM.Recent(events, HourMs, now), High)|
    ensures d.critical + d.high <= d.events
    ensures d.threats == Min(|alerts|, ThreatWindow) && d.threats <= ThreatWindow
    ensures d.errors == |errors| && d.quarantined == |quarantined|
  {
    var recent := SM.Recent(events, HourMs, now);
    CriticalAndHighFit(recent);
    Detailed(|recent|, |SM.OfSeverity(recent, Critical)|, |SM.OfSeverity(recent, High)|,
             |errors|, |SliceLast(alerts, ThreatWindow)|, |quarantined|)
  }

  /** Critical and high events are disjoint parts of the hour. */
  lemma {:induction false} CriticalAndHighFit(xs: seq<SM.Event>)
    ensures |SM.OfSeverity(xs, Critical)| + |SM.OfSeverity(xs, High)| <= |xs|
  {
    if xs != [] {
      CriticalAndHighFit(xs[1..]);
    }
  }

  /** The state the indicator keeps. */
  datatype Indicator = Indicator(status: Status, eventCount: nat, isVisible: bool, lastUpdate: int)

  function AfterUpdate(s: Indicator, events: seq<SM.Event>, errors: seq<PM.Report>, now: int): Indicator
  {
    var recent := SM.Recent(events, HourMs, now);
    s.(status := Classify(recent, errors), eventCount := |recent|, lastUpdate := now)
  }

  /** An update depends only on what it reads, not on what was shown before,
    * and leaves the visibility alone. */
  lemma UpdateForgetsPast(s: Indicator, t: Indicator, events: seq<SM.Event>, errors: seq<PM.Report>, now: int)
    requires s.isVisible == t.isVisible
    ensures AfterUpdate(s, events, errors, now) == AfterUpdate(t, events, errors, now)
    ensures AfterUpdate(s, events, errors, now).isVisible == s.isVisible
    ensures AfterUpdate(s, events, errors, now).eventCount == DetailedStatus(events, errors, [], [], now).events
  {
  }

  class StatusIndicator {
    var status: Status
    var eventCount: nat
    var isVisible: bool
    var lastUpdate: int

    function State(): Indicator
      reads this
    {
      Indicator(status, eventCount, isVisible, lastUpdate)
    }

    constructor (now: int)
      ensures State() == Indicator(Secure, 0, true, now)
    {
      status := Secure;
      eventCount := 0;
      isVisible := true;
      lastUpdate := now;
    }

    /** updateStatus, run on mount and by the thirty-second interval. */
    method UpdateStatus(events: seq<SM.Event>, errors: seq<PM.Report>, now: int)
      modifies this
      ensures State() == AfterUpdate(old(State()), events, errors, now)
    {
      var recent := SM.Recent(events, HourMs, now);
      var critical := SM.OfSeverity(recent, Critical);
      var high := SM.OfSeverity(recent, High);
      var criticalErrors := PM.OfSeverity(errors, Critical);
      eventCount := |recent|;
      lastUpdate := now;
      if |critical| > 0 || |criticalErrors| > 0 {
        status := CriticalStatus;
      } else if |high| > 2 || |recent| > 10 {
        status := Warning;
      } else {
        status := Secure;
      }
    }

    /** The eye-off button hides the card; the eye button brings it back. */
    method SetVisible(visible: bool)
      modifies this
      ensures State() == old(State()).(isVisible := visible)
    {
      isVisible := visible;
    }
  }
}
