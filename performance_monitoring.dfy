// The error and performance monitor of src/utils/performance-monitoring.ts.
//
// The monitor keeps the last fifty error reports of the page, forwards the
// critical ones at once ("sent", one record per sendError call), and, when a
// security monitor is attached to the window, files a notice for every
// report.  Report ids, clocks, the user agent and the page URL are
// parameters (a Stamp); the browser listeners are modelled by the three
// handler methods that turn their events into partial reports.

module PerformanceMonitoring {
  import opened Common

  /** The buffer keeps only the newest this many reports. */
  const MaxErrors: nat := 50
  /** A notice carries at most this many characters of the message. */
  const NoticeMessageLength: nat := 200

  datatype ErrorType = Javascript | Promise | Resource | Network

  /** The value a script threw, as determineSeverity looks at it. */
  datatype Thrown = Thrown(name: string, message: string)

  datatype Report = Report(
    id: string, timestamp: int, errorType: ErrorType, message: string,
    stack: Option<string>, filename: Option<string>, lineno: Option<int>, colno: Option<int>,
    url: Option<string>, userAgent: string, sessionId: string, pageUrl: string, severity: Severity)

  /** A Partial<ErrorReport> as the handlers build it: None is a key left out. */
  datatype Partial = Partial(
    errorType: Option<ErrorType>, message: Option<string>, stack: Option<string>,
    filename: Option<string>, lineno: Option<int>, colno: Option<int>, url: Option<string>,
    severity: Option<Severity>)

  /** What the environment supplies to a report: id, clock, user agent and page. */
  datatype Stamp = Stamp(id: string, now: int, userAgent: string, pageUrl: string)

  /** The suspicious-activity event handed to an attached security monitor. */
  datatype Notice = Notice(severity: Severity, errorType: ErrorType, message: string, filename: Option<string>)

  datatype Metric =
    | PageLoadTime | TimeToFirstByte | FirstContentfulPaint
    | LargestContentfulPaint | CumulativeLayoutShift | FirstInputDelay

  type Metrics = map<Metric, real>

  /** `securityMonitorAttached` is fixed when the monitor is made, although the
    * source looks for window.securityMonitor on every report; the application
    * installs that monitor at start-up (src/main.tsx:13) and never removes it, so
    * the answer does not change between reports. */
  datatype Monitor = Monitor(
    metrics: Option<Metrics>, errors: seq<Report>, sessionId: string,
    securityMonitorAttached: bool, sent: seq<Report>, notices: seq<Notice>)

  // ---------------------------------------------------------------------
  // Severity of a thrown error

  const CriticalNames: seq<string> := ["ChunkLoadError", "SecurityError", "TypeError", "ReferenceError"]
  const HighNames: seq<string> := ["SyntaxError", "RangeError", "URIError"]

  /** No error is low; the constructor name decides critical and high; a message
    * mentioning "network" in any letter case is medium; anything else is low. */
  function DetermineSeverity(error: Option<Thrown>): (r: Severity)
    ensures error.None? ==> r == Low
    ensures error.Some? ==> (r == Critical <==> error.value.name in CriticalNames)
    ensures error.Some? ==> (r == High <==> error.value.name !in CriticalNames && error.value.name in HighNames)
    ensures error.Some? ==>
      (r == Medium <==>
         error.value.name !in CriticalNames && error.value.name !in HighNames
         && ContainsCI(error.value.message, "network"))
  {
    match error
    case None => Low
    case Some(e) =>
      if e.name in CriticalNames then Critical
      else if e.name in HighNames then High
      else if ContainsCI(e.message, "network") then Medium
      else Low
  }

  /** The constructor name outranks the message: a TypeError about the network is critical. */
  lemma NameOutranksMessage(message: string)
    ensures DetermineSeverity(Some(Thrown("TypeError", message))) == Critical
    ensures DetermineSeverity(Some(Thrown("RangeError", message))) == High
  {
    assert "TypeError" == CriticalNames[2];
    assert "RangeError" == HighNames[1];
  }

  // ---------------------------------------------------------------------
  // Filing a report

  /** `x || default` on an optional string: a missing or empty string takes the default. */
  function OrDefault(s: Option<string>, default: string): (r: string)
    ensures s.Some? && s.value != "" ==> r == s.value
    ensures s.None? || s.value == "" ==> r == default
  {
    if s.Some? && s.value != "" then s.value else default
  }

  /** The report reportError builds: the given fields, defaults for type
    * (javascript), message (Unknown error) and severity (medium), and the
    * stamp and session of the monitor. */
  function Fill(p: Partial, s: Stamp, sessionId: string): (r: Report)
    ensures r.message != ""
    ensures r.errorType == (if p.errorType.Some? then p.errorType.value else Javascript)
    ensures r.severity == (if p.severity.Some? then p.severity.value else Medium)
    ensures p.message.Some? && p.message.value != "" ==> r.message == p.message.value
    ensures p.message.None? || p.message.value == "" ==> r.message == "Unknown error"
    ensures r.id == s.id && r.timestamp == s.now && r.userAgent == s.userAgent && r.pageUrl == s.pageUrl
    ensures r.sessionId == sessionId
    ensures r.stack == p.stack && r.filename == p.filename && r.url == p.url
    ensures r.lineno == p.lineno && r.colno == p.colno
  {
    Report(s.id, s.now,
           if p.errorType.Some? then p.errorType.value else Javascript,
           OrDefault(p.message, "Unknown error"),
           p.stack, p.filename, p.lineno, p.colno, p.url,
           s.userAgent, sessionId, s.pageUrl,
           if p.severity.Some? then p.severity.value else Medium)
  }

  /** Append the report and keep only the newest MaxErrors, oldest first. */
  function Push(buf: seq<Report>, e: Report): (r: seq<Report>)
    ensures |r| == Min(|buf| + 1, MaxErrors)
    ensures r[|r| - 1] == e
    ensures r == (buf + [e])[|buf| + 1 - |r|..]
  {
    var all := buf + [e];
    if |all| > MaxErrors then SliceLast(all, MaxErrors) else all
  }

  predicate IsCritical(e: Report)
  {
    e.severity == Critical
  }

  function NoticeOf(e: Report): (n: Notice)
    ensures n.severity == e.severity && n.errorType == e.errorType && n.filename == e.filename
    ensures |n.message| <= NoticeMessageLength && StartsWith(e.message, n.message)
  {
    Notice(e.severity, e.errorType, Take(e.message, NoticeMessageLength), e.filename)
  }

  function Initial(sessionId: string, attached: bool): Monitor
  {
    Monitor(None, [], sessionId, attached, [], [])
  }

  /** The monitor after reportError has filed `e`. */
  function AfterReport(m: Monitor, e: Report): (r: Monitor)
    ensures r.errors == Push(m.errors, e)
    ensures r.sent == m.sent + (if IsCritical(e) then [e] else [])
    ensures r.notices == m.notices + (if m.securityMonitorAttached then [NoticeOf(e)] else [])
    ensures r.metrics == m.metrics && r.sessionId == m.sessionId
    ensures r.securityMonitorAttached == m.securityMonitorAttached
  {
    m.(errors := Push(m.errors, e),
       sent := if IsCritical(e) then m.sent + [e] else m.sent,
       notices := if m.securityMonitorAttached then m.notices + [NoticeOf(e)] else m.notices)
  }

  /** Filing the reports `es` one after the other. */
  function ReportAll(m: Monitor, es: seq<Report>): Monitor
    decreases |es|
  {
    if es == [] then m else AfterReport(ReportAll(m, es[..|es| - 1]), es[|es| - 1])
  }

  lemma PushIsSliceLast(buf: seq<Report>, e: Report)
    ensures Push(buf, e) == SliceLast(buf + [e], MaxErrors)
  {
  }

  /** Cutting to the newest n before appending one more changes nothing. */
  lemma SliceLastPush(xs: seq<Report>, e: Report)
    ensures SliceLast(SliceLast(xs, MaxErrors) + [e], MaxErrors) == SliceLast(xs + [e], MaxErrors)
  {
    var a := SliceLast(xs, MaxErrors);
    assert a + [e] == (xs + [e])[|xs| - |a|..];
    var l := SliceLast(a + [e], MaxErrors);
    var r := SliceLast(xs + [e], MaxErrors);
    assert |l| == |r|;
    assert l == (a + [e])[|a| + 1 - |l|..];
    assert l == (xs + [e])[|xs| + 1 - |l|..];
  }

  /** The buffer is the newest MaxErrors reports ever filed, oldest first. */
  lemma {:induction false} ReportAllErrors(m: Monitor, es: seq<Report>)
    requires |m.errors| <= MaxErrors
    ensures ReportAll(m, es).errors == SliceLast(m.errors + es, MaxErrors)
    decreases |es|
  {
    if es == [] {
      assert m.errors + es == m.errors;
      assert |SliceLast(m.errors, MaxErrors)| == |m.errors|;
    } else {
      var init, e := es[..|es| - 1], es[|es| - 1];
      assert es == init + [e];
      var before := ReportAll(m, init);
      assert ReportAll(m, es).errors == Push(before.errors, e);
      ReportAllErrors(m, init);
      PushIsSliceLast(before.errors, e);
      SliceLastPush(m.errors + init, e);
      AppendAssoc(m.errors, init, [e]);
    }
  }

  lemma AppendAssoc<T>(a: seq<T>, b: seq<T>, c: seq<T>)
    ensures a + (b + c) == (a + b) + c
  {
  }

  /** Exactly the critical reports were forwarded, in filing order. */
  lemma {:induction false} ReportAllSent(m: Monitor, es: seq<Report>)
    ensures ReportAll(m, es).sent == m.sent + Filter(es, IsCritical)
    decreases |es|
  {
    if es == [] {
    } else {
      var init, e := es[..|es| - 1], es[|es| - 1];
      assert es == init + [e];
      var before := ReportAll(m, init);
      var last := if IsCritical(e) then [e] else [];
      assert ReportAll(m, es).sent == before.sent + last;
      ReportAllSent(m, init);
      CriticalOfLast(init, e);
      AppendAssoc(m.sent, Filter(init, IsCritical), last);
    }
  }

  lemma CriticalOfLast(init: seq<Report>, e: Report)
    ensures Filter(init + [e], IsCritical) == Filter(init, IsCritical) + (if IsCritical(e) then [e] else [])
  {
    FilterAppend(init, [e], IsCritical);
    assert Filter([e], IsCritical) == (if IsCritical(e) then [e] else []);
  }

  /** From a fresh monitor: at most MaxErrors reports are kept, the newest
    * last, and the forwarded ones are the critical ones. */
  lemma BufferKeepsNewest(sessionId: string, attached: bool, es: seq<Report>)
    ensures var r := ReportAll(Initial(sessionId, attached), es).errors;
      |r| == Min(|es|, MaxErrors) && r == es[|es| - |r|..]
    ensures ReportAll(Initial(sessionId, attached), es).sent == Filter(es, IsCritical)
  {
    var m := Initial(sessionId, attached);
    assert m.errors == [] && m.sent == [];
    ReportAllErrors(m, es);
    ReportAllSent(m, es);
    assert m.errors + es == es && m.sent + Filter(es, IsCritical) == Filter(es, IsCritical);
    var r := SliceLast(es, MaxErrors);
    assert ReportAll(m, es).errors == r;
    assert |r| == Min(|es|, MaxErrors);
  }

  // ---------------------------------------------------------------------
  // Queries and metrics

  function OfType(errors: seq<Report>, t: ErrorType): (r: seq<Report>)
    ensures |r| <= |errors|
    ensures forall e :: e in r <==> e in errors && e.errorType == t
  {
    Filter(errors, (e: Report) => e.errorType == t)
  }

  function OfSeverity(errors: seq<Report>, s: Severity): (r: seq<Report>)
    ensures |r| <= |errors|
    ensures forall e :: e in r <==> e in errors && e.severity == s
  {
    Filter(errors, (e: Report) => e.severity == s)
  }

  /** The report just filed is the newest of its type and of its severity. */
  lemma NewestOfItsKind(buf: seq<Report>, e: Report)
    ensures var r := OfType(Push(buf, e), e.errorType); r != [] && r[|r| - 1] == e
    ensures var r := OfSeverity(Push(buf, e), e.severity); r != [] && r[|r| - 1] == e
  {
    var p := Push(buf, e);
    assert p == p[..|p| - 1] + [e];
    FilterAppend(p[..|p| - 1], [e], (x: Report) => x.errorType == e.errorType);
    FilterAppend(p[..|p| - 1], [e], (x: Report) => x.severity == e.severity);
  }

  /** updateMetric: the key gets the value and every other key keeps its own;
    * with no metrics yet the object starts empty. */
  function SetMetric(m: Option<Metrics>, key: Metric, value: real): (r: Metrics)
    ensures key in r && r[key] == value
    ensures forall k :: k != key ==> (k in r <==> m.Some? && k in m.value)
    ensures forall k :: k != key && k in r ==> r[k] == m.value[k]
  {
    (if m.Some? then m.value else map[])[key := value]
  }

  lemma FirstMetricIsAlone(key: Metric, value: real)
    ensures SetMetric(None, key, value).Keys == {key}
  {
  }

  // ---------------------------------------------------------------------
  // The reports the listeners and reportCustomError build

  /** A script error: its message and location, severity from the thrown value. */
  function ScriptError(message: string, error: Option<Thrown>, stack: Option<string>, filename: Option<string>,
                       lineno: Option<int>, colno: Option<int>): Partial
  {
    Partial(Some(Javascript), Some(message), stack, filename, lineno, colno, None, Some(DetermineSeverity(error)))
  }

  /** The reason of an unhandled rejection, when it has a message and a stack. */
  datatype Reason = Reason(message: Option<string>, stack: Option<string>)

  function Rejection(reason: Option<Reason>): Partial
  {
    var message := if reason.Some? then reason.value.message else None;
    Partial(Some(Promise), Some(OrDefault(message, "Unhandled promise rejection")),
            if reason.Some? then reason.value.stack else None, None, None, None, None, Some(High))
  }

  /** A failed resource: the element's tag, and its src or else its href. */
  function ResourceFailure(tagName: string, src: Option<string>, href: Option<string>): Partial
  {
    var url := if src.Some? && src.value != "" then src else href;
    Partial(Some(Resource), Some("Failed to load resource: " + tagName), None, None, None, None, url, Some(Medium))
  }

  function CustomError(message: string, severity: Option<Severity>): Partial
  {
    Partial(Some(Javascript), Some(message), None, None, None, None, None,
            Some(if severity.Some? then severity.value else Medium))
  }

  lemma ScriptErrorReport(message: string, error: Option<Thrown>, stack: Option<string>, filename: Option<string>,
                          lineno: Option<int>, colno: Option<int>, s: Stamp, sessionId: string)
    ensures var r := Fill(ScriptError(message, error, stack, filename, lineno, colno), s, sessionId);
      r.errorType == Javascript && r.severity == DetermineSeverity(error)
      && (error.None? ==> r.severity == Low)
      && r.filename == filename && r.lineno == lineno && r.colno == colno
      && (message != "" ==> r.message == message)
  {
  }

  /** An unhandled rejection is always high, and its message is never empty. */
  lemma RejectionReport(reason: Option<Reason>, s: Stamp, sessionId: string)
    ensures var r := Fill(Rejection(reason), s, sessionId);
      r.errorType == Promise && r.severity == High
      && (reason.None? ==> r.message == "Unhandled promise rejection")
      && (reason.Some? && reason.value.message.Some? && reason.value.message.value != "" ==>
            r.message == reason.value.message.value)
  {
  }

  lemma ResourceReport(tagName: string, src: Option<string>, href: Option<string>, s: Stamp, sessionId: string)
    ensures var r := Fill(ResourceFailure(tagName, src, href), s, sessionId);
      r.errorType == Resource && r.severity == Medium
      && StartsWith(r.message, "Failed to load resource: ")
      && (src.Some? && src.value != "" ==> r.url == src)
      && (src.None? || src.value == "" ==> r.url == href)
  {
    var m := "Failed to load resource: " + tagName;
    assert m[..|"Failed to load resource: "|] == "Failed to load resource: ";
  }

  /** A custom error is a javascript report, medium unless told otherwise; an
    * empty message still becomes "Unknown error". */
  lemma CustomErrorReport(message: string, severity: Option<Severity>, s: Stamp, sessionId: string)
    ensures var r := Fill(CustomError(message, severity), s, sessionId);
      r.errorType == Javascript
      && r.severity == (if severity.Some? then severity.value else Medium)
      && r.message == (if message == "" then "Unknown error" else message)
  {
  }

  // ---------------------------------------------------------------------
  // The monitor object

  class PerformanceMonitor {
    var metrics: Option<Metrics>
    var errors: seq<Report>
    const sessionId: string
    /** Whether `window.securityMonitor` is present; fixed at construction (see Monitor). */
    const securityMonitorAttached: bool
    /** The reports handed to sendError, oldest first. */
    var sent: seq<Report>
    /** The events logged with the security monitor, oldest first. */
    var notices: seq<Notice>

    function State(): Monitor
      reads this
    {
      Monitor(metrics, errors, sessionId, securityMonitorAttached, sent, notices)
    }

    constructor (sessionId: string, securityMonitorAttached: bool)
      ensures State() == Initial(sessionId, securityMonitorAttached)
    {
      this.sessionId := sessionId;
      this.securityMonitorAttached := securityMonitorAttached;
      metrics := None;
      errors := [];
      sent := [];
      notices := [];
    }

    method ReportError(p: Partial, s: Stamp)
      modifies this
      ensures State() == AfterReport(old(State()), Fill(p, s, sessionId))
    {
      var e := Fill(p, s, sessionId);
      errors := errors + [e];
      if |errors| > MaxErrors {
        errors := SliceLast(errors, MaxErrors);
      }
      if e.severity == Critical {
        sent := sent + [e];
      }
      if securityMonitorAttached {
        notices := notices + [NoticeOf(e)];
      }
    }

    method OnScriptError(message: string, error: Option<Thrown>, stack: Option<string>, filename: Option<string>,
                         lineno: Option<int>, colno: Option<int>, s: Stamp)
      modifies this
      ensures State() == AfterReport(old(State()), Fill(ScriptError(message, error, stack, filename, lineno, colno), s, sessionId))
    {
      ReportError(ScriptError(message, error, stack, filename, lineno, colno), s);
    }

    method OnUnhandledRejection(reason: Option<Reason>, s: Stamp)
      modifies this
      ensures State() == AfterReport(old(State()), Fill(Rejection(reason), s, sessionId))
    {
      ReportError(Rejection(reason), s);
    }

    method OnResourceError(tagName: string, src: Option<string>, href: Option<string>, s: Stamp)
      modifies this
      ensures State() == AfterReport(old(State()), Fill(ResourceFailure(tagName, src, href), s, sessionId))
    {
      ReportError(ResourceFailure(tagName, src, href), s);
    }

    method ReportCustomError(message: string, severity: Option<Severity>, s: Stamp)
      modifies this
      ensures State() == AfterReport(old(State()), Fill(CustomError(message, severity), s, sessionId))
    {
      ReportError(CustomError(message, severity), s);
    }

    method UpdateMetric(key: Metric, value: real)
      modifies this
      ensures metrics == Some(SetMetric(old(metrics), key, value))
      ensures errors == old(errors) && sent == old(sent) && notices == old(notices)
    {
      var m: Metrics := if metrics.Some? then metrics.value else map[];
      metrics := Some(m[key := value]);
    }

    method GetMetrics() returns (r: Option<Metrics>)
      ensures r == metrics
    {
      r := metrics;
    }

    method GetErrors() returns (r: seq<Report>)
      ensures r == errors
    {
      r := errors;
    }

    method GetErrorsByType(t: ErrorType) returns (r: seq<Report>)
      ensures r == OfType(errors, t)
    {
      r := OfType(errors, t);
    }

    method GetErrorsBySeverity(s: Severity) returns (r: seq<Report>)
      ensures r == OfSeverity(errors, s)
    {
      r := OfSeverity(errors, s);
    }

    method ClearErrors()
      modifies this
      ensures errors == []
      ensures metrics == old(metrics) && sent == old(sent) && notices == old(notices)
    {
      errors := [];
    }
  }
}
