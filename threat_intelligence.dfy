// The threat signature table, content scanner, threshold rules, alert history
// and quarantine set of src/utils/threat-intelligence.ts.
//
// Regular-expression signatures are matched by an abstract matcher `rx`
// (the source's `content.match(pattern)`, as the list of matches, empty for
// null).  The policy engine evaluates its rule conditions as JavaScript text;
// it is modelled only far enough to show that none of the default rules can
// fire for the threats the rules here raise.

module ThreatIntelligence {
  import opened Common
  import opened SecurityMonitoring

  /** A signature pattern: a regular expression (by its source text) or a plain string. */
  datatype Pattern = Regex(source: string) | Text(text: string)

  datatype Signature = Signature(
    id: string, name: string, pattern: Pattern, severity: Severity,
    description: string, mitigation: string, enabled: bool, lastUpdated: int)

  /** A Partial<ThreatSignature>: None is a field the update does not mention. */
  datatype SignatureUpdate = SignatureUpdate(
    id: Option<string>, name: Option<string>, pattern: Option<Pattern>, severity: Option<Severity>,
    description: Option<string>, mitigation: Option<string>, enabled: Option<bool>)

  datatype Threat = Threat(signature: Signature, matches: seq<string>)

  type Matcher = (string, string) -> seq<string>

  type Table = seq<(string, Signature)>

  const RapidLogins: string := "multiple_failed_logins_rapid"
  const AutomatedBehavior: string := "automated_behavior_pattern"

  function DefaultSignature(id: string, name: string, pattern: Pattern, severity: Severity,
                            description: string, mitigation: string, now: int): Signature
  {
    Signature(id, name, pattern, severity, description, mitigation, true, now)
  }

  function DefaultSignatures(now: int): (r: Table)
    ensures Keys(r) == ["sql_injection_basic", "xss_script_tag", "path_traversal",
                        "command_injection", "credential_stuffing", "bot_detection"]
  {
    [ ("sql_injection_basic", DefaultSignature("sql_injection_basic", "SQL Injection Pattern",
        Regex("(union\\s+select|select\\s+\\*\\s+from|drop\\s+table|insert\\s+into|delete\\s+from)"), High,
        "Detects common SQL injection patterns", "Input validation and parameterized queries", now)),
      ("xss_script_tag", DefaultSignature("xss_script_tag", "XSS Script Tag",
        Regex("<script[^>]*>.*?<\\/script>"), High,
        "Detects script tag injection attempts", "HTML encoding and CSP enforcement", now)),
      ("path_traversal", DefaultSignature("path_traversal", "Path Traversal",
        Regex("(\\.\\.|%2e%2e|\\.\\.%2f|%2e%2e%2f)"), Medium,
        "Detects directory traversal attempts", "Path validation and sandboxing", now)),
      ("command_injection", DefaultSignature("command_injection", "Command Injection",
        Regex("(\\||\\|\\||&|&&|;|`|\\$\\(|\\${)"), Critical,
        "Detects command injection attempts", "Input sanitization and command escaping", now)),
      ("credential_stuffing", DefaultSignature("credential_stuffing", "Credential Stuffing",
        Text(RapidLogins), High,
        "Detects rapid login attempts from same source", "Rate limiting and CAPTCHA", now)),
      ("bot_detection", DefaultSignature("bot_detection", "Bot Activity",
        Text(AutomatedBehavior), Medium,
        "Detects automated bot behavior", "CAPTCHA and behavioral analysis", now)) ]
  }

  /** The default table's ids are distinct. */
  lemma DefaultIdsDistinct(now: int)
    ensures NoDup(Keys(DefaultSignatures(now)))
  {
    var ks := Keys(DefaultSignatures(now));
    assert |ks[0]| == 19 && |ks[1]| == 14 && |ks[2]| == 14 && |ks[3]| == 17 && |ks[4]| == 19 && |ks[5]| == 13;
    assert ks[0][0] != ks[4][0] && ks[1][0] != ks[2][0];
  }

  /** evaluateStringPattern: the two symbolic patterns are placeholders that never
    * match; any other string matches when it occurs in the content. */
  predicate StringPatternMatches(pattern: string, content: string)
  {
    if pattern == RapidLogins || pattern == AutomatedBehavior then false
    else Contains(content, pattern)
  }

  function Matches(p: Pattern, content: string, rx: Matcher): (r: seq<string>)
    ensures p.Text? ==> (r == [p.text] <==> StringPatternMatches(p.text, content))
    ensures p.Text? ==> (r == [] <==> !StringPatternMatches(p.text, content))
  {
    match p
    case Regex(source) => rx(source, content)
    case Text(text) => if StringPatternMatches(text, content) then [text] else []
  }

  /** The threat one table entry contributes to a scan, if any. */
  function ScanOne(s: Signature, content: string, rx: Matcher): seq<Threat>
  {
    var ms := Matches(s.pattern, content, rx);
    if s.enabled && |ms| > 0 then [Threat(s, ms)] else []
  }

  /** scanContent: one report per enabled signature that matched, in table order. */
  function Scan(table: Table, content: string, rx: Matcher): (r: seq<Threat>)
    ensures |r| <= |table|
    ensures forall i :: 0 <= i < |r| ==> r[i].signature.enabled && |r[i].matches| > 0
  {
    if table == [] then []
    else ScanOne(table[0].1, content, rx) + Scan(table[1..], content, rx)
  }

  /** A threat is reported exactly for an enabled table entry whose pattern matched. */
  lemma {:induction false} ScanReports(table: Table, content: string, rx: Matcher, t: Threat)
    ensures t in Scan(table, content, rx) <==>
      exists i :: 0 <= i < |table| && table[i].1.enabled
                  && t == Threat(table[i].1, Matches(table[i].1.pattern, content, rx)) && |t.matches| > 0
  {
    if table != [] {
      ScanReports(table[1..], content, rx, t);
      if t in Scan(table[1..], content, rx) {
        var i :| 0 <= i < |table[1..]| && table[1..][i].1.enabled
                 && t == Threat(table[1..][i].1, Matches(table[1..][i].1.pattern, content, rx)) && |t.matches| > 0;
        assert table[i + 1] == table[1..][i];
      }
      if exists i :: 0 <= i < |table| && table[i].1.enabled
                     && t == Threat(table[i].1, Matches(table[i].1.pattern, content, rx)) && |t.matches| > 0 {
        var i :| 0 <= i < |table| && table[i].1.enabled
                 && t == Threat(table[i].1, Matches(table[i].1.pattern, content, rx)) && |t.matches| > 0;
        if i > 0 {
          assert table[1..][i - 1] == table[i];
        }
      }
    }
  }

  /** Scanning a table in two parts scans each part, in order. */
  lemma {:induction false} ScanAppend(a: Table, b: Table, content: string, rx: Matcher)
    ensures Scan(a + b, content, rx) == Scan(a, content, rx) + Scan(b, content, rx)
  {
    if a != [] {
      assert (a + b)[0] == a[0] && (a + b)[1..] == a[1..] + b;
      ScanAppend(a[1..], b, content, rx);
    } else {
      assert a + b == b;
    }
  }

  /** One step of a scan: the entry at `i`, then the rest of the table. */
  lemma ScanStep(table: Table, i: nat, content: string, rx: Matcher)
    requires i < |table|
    ensures Scan(table[i..], content, rx) == ScanOne(table[i].1, content, rx) + Scan(table[i + 1..], content, rx)
  {
    assert table[i..][0] == table[i] && table[i..][1..] == table[i + 1..];
  }

  /** One step of the scan: the reports so far, then the rest of the table. */
  lemma ScanAdvance(table: Table, i: nat, content: string, rx: Matcher, done: seq<Threat>)
    requires i < |table|
    ensures done + Scan(table[i..], content, rx)
         == (done + ScanOne(table[i].1, content, rx)) + Scan(table[i + 1..], content, rx)
  {
    ScanStep(table, i, content, rx);
  }

  /** The scanning loop of scanContent over a signature table. */
  method ScanTable(table: Table, content: string, rx: Matcher) returns (threats: seq<Threat>)
    ensures threats == Scan(table, content, rx)
  {
    threats := [];
    var i := 0;
    assert table[0..] == table;
    while i < |table|
      invariant 0 <= i <= |table|
      invariant threats + Scan(table[i..], content, rx) == Scan(table, content, rx)
    {
      var s := table[i].1;
      var matches: seq<string> := [];
      if s.enabled {
        matches := Matches(s.pattern, content, rx);
      }
      ScanAdvance(table, i, content, rx, threats);
      if |matches| > 0 {
        threats := threats + [Threat(s, matches)];
      } else {
        assert ScanOne(s, content, rx) == [];
        assert threats + [] == threats;
      }
      i := i + 1;
    }
  }

  /** With the default table the two symbolic signatures are never reported, whatever the content. */
  lemma DefaultSymbolicNeverReported(now: int, content: string, rx: Matcher)
    ensures forall t | t in Scan(DefaultSignatures(now), content, rx) ::
      t.signature.id != "credential_stuffing" && t.signature.id != "bot_detection"
  {
    var table := DefaultSignatures(now);
    forall t | t in Scan(table, content, rx)
      ensures t.signature.id != "credential_stuffing" && t.signature.id != "bot_detection"
    {
      ScanReports(table, content, rx, t);
      var i :| 0 <= i < |table| && table[i].1.enabled
               && t == Threat(table[i].1, Matches(table[i].1.pattern, content, rx)) && |t.matches| > 0;
      assert i < 4;
    }
  }

  /** `{ ...existing, ...updates, lastUpdated: Date.now() }`. */
  function Overlay(s: Signature, u: SignatureUpdate, now: int): (r: Signature)
    ensures r.lastUpdated == now
    ensures u.id.Some? ==> r.id == u.id.value
    ensures u.id.None? ==> r.id == s.id
    ensures u.name.Some? ==> r.name == u.name.value
    ensures u.name.None? ==> r.name == s.name
    ensures u.pattern.Some? ==> r.pattern == u.pattern.value
    ensures u.pattern.None? ==> r.pattern == s.pattern
    ensures u.severity.Some? ==> r.severity == u.severity.value
    ensures u.severity.None? ==> r.severity == s.severity
    ensures u.description.Some? ==> r.description == u.description.value
    ensures u.description.None? ==> r.description == s.description
    ensures u.mitigation.Some? ==> r.mitigation == u.mitigation.value
    ensures u.mitigation.None? ==> r.mitigation == s.mitigation
    ensures u.enabled.Some? ==> r.enabled == u.enabled.value
    ensures u.enabled.None? ==> r.enabled == s.enabled
  {
    Signature(
      UnwrapOr(u.id, s.id), UnwrapOr(u.name, s.name), UnwrapOr(u.pattern, s.pattern),
      UnwrapOr(u.severity, s.severity), UnwrapOr(u.description, s.description),
      UnwrapOr(u.mitigation, s.mitigation), UnwrapOr(u.enabled, s.enabled), now)
  }

  function AfterUpdate(table: Table, id: string, u: SignatureUpdate, now: int): Table
  {
    match Get(table, id)
    case None => table
    case Some(s) => Put(table, id, Overlay(s, u, now))
  }

  /** updateSignature changes only the named entry, and nothing at all for an unknown id. */
  lemma UpdateTouchesOnlyItsId(table: Table, id: string, u: SignatureUpdate, now: int, other: string)
    ensures Keys(AfterUpdate(table, id, u, now)) == Keys(table)
    ensures other != id ==> Get(AfterUpdate(table, id, u, now), other) == Get(table, other)
    ensures Get(table, id).None? ==> AfterUpdate(table, id, u, now) == table
    ensures Get(table, id).Some? ==>
      Get(AfterUpdate(table, id, u, now), id) == Some(Overlay(Get(table, id).value, u, now))
  {
    if Get(table, id).Some? {
      PutGet(table, id, Overlay(Get(table, id).value, u, now), other);
      PutGet(table, id, Overlay(Get(table, id).value, u, now), id);
    }
  }

  // ---------------------------------------------------------------------
  // Threshold rules over the monitor's recent events

  datatype ThreatKind = CredentialStuffing | ScanningDetected | MassExploitation

  function ThreatName(k: ThreatKind): string
  {
    match k
    case CredentialStuffing => "credential_stuffing"
    case ScanningDetected => "scanning_detected"
    case MassExploitation => "mass_exploitation"
  }

  /** The details record handed to triggerSecurityResponse (every one also says "5_minutes"). */
  datatype ThreatDetails = CountDetails(eventCount: nat) | MassDetails(criticalEvents: nat, highEvents: nat)

  datatype Alert = Alert(timestamp: int, signature: string, severity: Severity, details: ThreatDetails)

  function Count<K>(m: map<K, nat>, k: K): nat
  {
    if k in m then m[k] else 0
  }

  /** evaluateThreatPatterns: every rule uses a strict threshold. */
  function Triggers(typeCounts: map<EventType, nat>, severityCounts: map<Severity, nat>): seq<(ThreatKind, ThreatDetails)>
  {
    var failed := Count(typeCounts, FailedLogin);
    var suspicious := Count(typeCounts, SuspiciousActivity);
    var critical := Count(severityCounts, Critical);
    var high := Count(severityCounts, High);
    (if failed > 10 then [(CredentialStuffing, CountDetails(failed))] else [])
    + (if suspicious > 5 then [(ScanningDetected, CountDetails(suspicious))] else [])
    + (if critical + high > 10 then [(MassExploitation, MassDetails(critical, high))] else [])
  }

  /** The per-type tally performThreatAssessment builds, event by event. */
  function TypeCounts(events: seq<Event>): map<EventType, nat>
  {
    if events == [] then map[]
    else
      var m := TypeCounts(events[..|events| - 1]);
      var t := events[|events| - 1].eventType;
      m[t := Count(m, t) + 1]
  }

  function SeverityCounts(events: seq<Event>): map<Severity, nat>
  {
    if events == [] then map[]
    else
      var m := SeverityCounts(events[..|events| - 1]);
      var s := events[|events| - 1].severity;
      m[s := Count(m, s) + 1]
  }

  lemma {:induction false} TypeTally(events: seq<Event>, t: EventType)
    ensures Count(TypeCounts(events), t) == |OfType(events, t)|
  {
    if events != [] {
      var prefix := events[..|events| - 1];
      var e := events[|events| - 1];
      TypeTally(prefix, t);
      assert events == prefix + [e];
      FilterAppend(prefix, [e], (x: Event) => x.eventType == t);
    }
  }

  lemma {:induction false} SeverityTally(events: seq<Event>, s: Severity)
    ensures Count(SeverityCounts(events), s) == |OfSeverity(events, s)|
  {
    if events != [] {
      var prefix := events[..|events| - 1];
      var e := events[|events| - 1];
      SeverityTally(prefix, s);
      assert events == prefix + [e];
      FilterAppend(prefix, [e], (x: Event) => x.severity == s);
    }
  }

  /** The tally counts each type and each severity exactly. */
  lemma TallyCounts(events: seq<Event>, t: EventType, s: Severity)
    ensures Count(TypeCounts(events), t) == |OfType(events, t)|
    ensures Count(SeverityCounts(events), s) == |OfSeverity(events, s)|
  {
    TypeTally(events, t);
    SeverityTally(events, s);
  }

  /** Each rule fires exactly when its count is strictly over its threshold. */
  lemma TriggerRules(typeCounts: map<EventType, nat>, severityCounts: map<Severity, nat>)
    ensures var ts := Triggers(typeCounts, severityCounts);
      && (((CredentialStuffing, CountDetails(Count(typeCounts, FailedLogin))) in ts)
          <==> Count(typeCounts, FailedLogin) > 10)
      && (((ScanningDetected, CountDetails(Count(typeCounts, SuspiciousActivity))) in ts)
          <==> Count(typeCounts, SuspiciousActivity) > 5)
      && (((MassExploitation, MassDetails(Count(severityCounts, Critical), Count(severityCounts, High))) in ts)
          <==> Count(severityCounts, Critical) + Count(severityCounts, High) > 10)
      && |ts| <= 3
  {
  }

  /** Which threats a set of recent events raises, stated on the events themselves. */
  lemma TriggerThresholds(events: seq<Event>)
    ensures var ts := Triggers(TypeCounts(events), SeverityCounts(events));
      && (((CredentialStuffing, CountDetails(|OfType(events, FailedLogin)|)) in ts)
          <==> |OfType(events, FailedLogin)| > 10)
      && (((ScanningDetected, CountDetails(|OfType(events, SuspiciousActivity)|)) in ts)
          <==> |OfType(events, SuspiciousActivity)| > 5)
      && (((MassExploitation, MassDetails(|OfSeverity(events, Critical)|, |OfSeverity(events, High)|)) in ts)
          <==> |OfSeverity(events, Critical)| + |OfSeverity(events, High)| > 10)
      && |ts| <= 3
  {
    TallyCounts(events, FailedLogin, Critical);
    TallyCounts(events, SuspiciousActivity, High);
    TriggerRules(TypeCounts(events), SeverityCounts(events));
  }

  /** The sum of the per-type counts, one term per event type. */
  function TypeTotal(events: seq<Event>): nat
  {
    |OfType(events, FailedLogin)| + |OfType(events, SuspiciousActivity)| + |OfType(events, RateLimitExceeded)|
    + |OfType(events, InvalidInput)| + |OfType(events, XssAttempt)| + |OfType(events, SqlInjectionAttempt)|
    + |OfType(events, CsrfAttempt)| + |OfType(events, UnauthorizedAccess)| + |OfType(events, DataBreachAttempt)|
    + |OfType(events, MalwareDetected)| + |OfType(events, UnusualLocation)|
    + |OfType(events, MultipleFailedAttempts)| + |OfType(events, SessionHijackAttempt)|
    + |OfType(events, PrivilegeEscalationAttempt)|
  }

  lemma OfTypeStep(events: seq<Event>, t: EventType)
    requires events != []
    ensures |OfType(events, t)| == |OfType(events[1..], t)| + (if events[0].eventType == t then 1 else 0)
  {
  }

  /** The first event adds one to exactly one per-type count. */
  lemma TypeTotalStep(events: seq<Event>)
    requires events != []
    ensures TypeTotal(events) == TypeTotal(events[1..]) + 1
  {
    OfTypeStep(events, FailedLogin);
    OfTypeStep(events, SuspiciousActivity);
    OfTypeStep(events, RateLimitExceeded);
    OfTypeStep(events, InvalidInput);
    OfTypeStep(events, XssAttempt);
    OfTypeStep(events, SqlInjectionAttempt);
    OfTypeStep(events, CsrfAttempt);
    OfTypeStep(events, UnauthorizedAccess);
    OfTypeStep(events, DataBreachAttempt);
    OfTypeStep(events, MalwareDetected);
    OfTypeStep(events, UnusualLocation);
    OfTypeStep(events, MultipleFailedAttempts);
    OfTypeStep(events, SessionHijackAttempt);
    OfTypeStep(events, PrivilegeEscalationAttempt);
    // one case per type: in each, exactly that type's count grew
    match events[0].eventType
    case FailedLogin =>
    case SuspiciousActivity =>
    case RateLimitExceeded =>
    case InvalidInput =>
    case XssAttempt =>
    case SqlInjectionAttempt =>
    case CsrfAttempt =>
    case UnauthorizedAccess =>
    case DataBreachAttempt =>
    case MalwareDetected =>
    case UnusualLocation =>
    case MultipleFailedAttempts =>
    case SessionHijackAttempt =>
    case PrivilegeEscalationAttempt =>
  }

  /** The per-type counts of the assessment add up to the number of events examined. */
  lemma {:induction false} TypeCountsSum(events: seq<Event>)
    ensures TypeTotal(events) == |events|
  {
    if events != [] {
      TypeCountsSum(events[1..]);
      TypeTotalStep(events);
    }
  }

  /** The per-severity counts add up to the number of events examined. */
  lemma {:induction false} SeverityCountsSum(events: seq<Event>)
    ensures |OfSeverity(events, Low)| + |OfSeverity(events, Medium)|
          + |OfSeverity(events, High)| + |OfSeverity(events, Critical)| == |events|
  {
    if events != [] {
      SeverityCountsSum(events[1..]);
    }
  }

  // ---------------------------------------------------------------------
  // The default response policies

  /** The three default rule conditions, in the shape their JavaScript text has. */
  datatype Condition =
    | SeverityIs(severity: string)
    | SeverityIsAndCountOver(severity: string, count: nat)
    | TypeIsAndCountOver(threatType: string, count: nat)

  datatype Action = Block | RateLimit | Quarantine | AlertAction

  datatype Rule = Rule(id: string, condition: Condition, action: Action)

  function DefaultRules(): seq<Rule>
  {
    [ Rule("block_critical", SeverityIs("critical"), Block),
      Rule("rate_limit_high", SeverityIsAndCountOver("high", 3), RateLimit),
      Rule("quarantine_suspicious", TypeIsAndCountOver("suspicious_activity", 5), Quarantine) ]
  }

  /** The `count` a condition sees: eventCount || criticalEvents || highEvents || 0. */
  function ContextCount(d: ThreatDetails): nat
  {
    match d
    case CountDetails(n) => n
    case MassDetails(c, h) => if c != 0 then c else h
  }

  /** evaluateCondition: no details record carries a severity, so `severity` is always
    * "medium"; `type` is the threat type. */
  predicate Holds(c: Condition, threatType: string, d: ThreatDetails)
  {
    var severity := "medium";
    match c
    case SeverityIs(s) => severity == s
    case SeverityIsAndCountOver(s, n) => severity == s && ContextCount(d) > n
    case TypeIsAndCountOver(t, n) => threatType == t && ContextCount(d) > n
  }

  /** No default rule fires for any threat the threshold rules raise. */
  lemma DefaultRulesNeverFire(typeCounts: map<EventType, nat>, severityCounts: map<Severity, nat>)
    ensures forall tr, r | tr in Triggers(typeCounts, severityCounts) && r in DefaultRules() ::
      !Holds(r.condition, ThreatName(tr.0), tr.1)
  {
  }

  /** triggerSecurityResponse, as far as the history goes: one 'high' alert per threat. */
  function Responses(triggers: seq<(ThreatKind, ThreatDetails)>, now: int): (r: seq<Alert>)
    ensures |r| == |triggers|
    ensures forall i :: 0 <= i < |r| ==>
      r[i] == Alert(now, ThreatName(triggers[i].0), High, triggers[i].1)
  {
    seq(|triggers|, i requires 0 <= i < |triggers| => Alert(now, ThreatName(triggers[i].0), High, triggers[i].1))
  }

  /** How many of the three threshold rules fire for these events. */
  function FiredRules(events: seq<Event>): nat
  {
    (if |OfType(events, FailedLogin)| > 10 then 1 else 0)
    + (if |OfType(events, SuspiciousActivity)| > 5 then 1 else 0)
    + (if |OfSeverity(events, Critical)| + |OfSeverity(events, High)| > 10 then 1 else 0)
  }

  /** The alert of one rule, present only when the rule fired. */
  function AlertIf(fired: bool, name: string, d: ThreatDetails, now: int): seq<Alert>
  {
    if fired then [Alert(now, name, High, d)] else []
  }

  lemma ResponsesAppend(a: seq<(ThreatKind, ThreatDetails)>, b: seq<(ThreatKind, ThreatDetails)>, now: int)
    ensures Responses(a + b, now) == Responses(a, now) + Responses(b, now)
  {
  }

  /** The responses to the threshold rules, rule by rule. */
  lemma ResponsesOfTriggers(typeCounts: map<EventType, nat>, severityCounts: map<Severity, nat>, now: int)
    ensures var failed, suspicious := Count(typeCounts, FailedLogin), Count(typeCounts, SuspiciousActivity);
      var critical, high := Count(severityCounts, Critical), Count(severityCounts, High);
      Responses(Triggers(typeCounts, severityCounts), now)
      == AlertIf(failed > 10, "credential_stuffing", CountDetails(failed), now)
         + AlertIf(suspicious > 5, "scanning_detected", CountDetails(suspicious), now)
         + AlertIf(critical + high > 10, "mass_exploitation", MassDetails(critical, high), now)
  {
    var failed, suspicious := Count(typeCounts, FailedLogin), Count(typeCounts, SuspiciousActivity);
    var critical, high := Count(severityCounts, Critical), Count(severityCounts, High);
    var a := if failed > 10 then [(CredentialStuffing, CountDetails(failed))] else [];
    var b := if suspicious > 5 then [(ScanningDetected, CountDetails(suspicious))] else [];
    var c := if critical + high > 10 then [(MassExploitation, MassDetails(critical, high))] else [];
    assert Triggers(typeCounts, severityCounts) == a + b + c;
    ResponsesAppend(a + b, c, now);
    ResponsesAppend(a, b, now);
    ResponseOfRule(failed > 10, CredentialStuffing, "credential_stuffing", CountDetails(failed), now);
    ResponseOfRule(suspicious > 5, ScanningDetected, "scanning_detected", CountDetails(suspicious), now);
    ResponseOfRule(critical + high > 10, MassExploitation, "mass_exploitation", MassDetails(critical, high), now);
  }

  /** The response to one rule's optional trigger is that rule's optional alert. */
  lemma ResponseOfRule(fired: bool, kind: ThreatKind, name: string, d: ThreatDetails, now: int)
    requires ThreatName(kind) == name
    ensures Responses(if fired then [(kind, d)] else [], now) == AlertIf(fired, name, d, now)
  {
  }

  /** Three optional alerts with distinct names: an alert is present exactly
    * when its rule fired, and each present alert belongs to a fired rule. */
  lemma AlertsOfRules(x: bool, y: bool, z: bool, dx: ThreatDetails, dy: ThreatDetails, dz: ThreatDetails, now: int)
    ensures var alerts := AlertIf(x, "credential_stuffing", dx, now) + AlertIf(y, "scanning_detected", dy, now)
                          + AlertIf(z, "mass_exploitation", dz, now);
      && |alerts| == (if x then 1 else 0) + (if y then 1 else 0) + (if z then 1 else 0)
      && (forall a :: a in alerts ==> a.severity == High && a.timestamp == now)
      && (Alert(now, "credential_stuffing", High, dx) in alerts <==> x)
      && (Alert(now, "scanning_detected", High, dy) in alerts <==> y)
      && (Alert(now, "mass_exploitation", High, dz) in alerts <==> z)
      && (forall a :: a in alerts ==>
            (a.signature == "credential_stuffing" && x) || (a.signature == "scanning_detected" && y)
            || (a.signature == "mass_exploitation" && z))
  {
    assert "credential_stuffing"[0] != "scanning_detected"[0] && "credential_stuffing"[0] != "mass_exploitation"[0];
    assert "scanning_detected"[0] != "mass_exploitation"[0];
  }

  /** The responses to an assessment: one alert per rule that fired, each
    * stamped now with severity 'high', naming that rule and carrying its
    * counts; an alert names no rule that did not fire. */
  lemma AssessmentAlerts(events: seq<Event>, now: int)
    ensures var alerts := Responses(Triggers(TypeCounts(events), SeverityCounts(events)), now);
      var failed, suspicious := |OfType(events, FailedLogin)|, |OfType(events, SuspiciousActivity)|;
      var critical, high := |OfSeverity(events, Critical)|, |OfSeverity(events, High)|;
      && |alerts| == FiredRules(events)
      && (forall a :: a in alerts ==> a.severity == High && a.timestamp == now)
      && (Alert(now, "credential_stuffing", High, CountDetails(failed)) in alerts <==> failed > 10)
      && (Alert(now, "scanning_detected", High, CountDetails(suspicious)) in alerts <==> suspicious > 5)
      && (Alert(now, "mass_exploitation", High, MassDetails(critical, high)) in alerts <==> critical + high > 10)
      && (forall a :: a in alerts ==>
            (a.signature == "credential_stuffing" && failed > 10)
            || (a.signature == "scanning_detected" && suspicious > 5)
            || (a.signature == "mass_exploitation" && critical + high > 10))
  {
    TallyCounts(events, FailedLogin, Critical);
    TallyCounts(events, SuspiciousActivity, High);
    ResponsesOfTriggers(TypeCounts(events), SeverityCounts(events), now);
    var failed, suspicious := |OfType(events, FailedLogin)|, |OfType(events, SuspiciousActivity)|;
    var critical, high := |OfSeverity(events, Critical)|, |OfSeverity(events, High)|;
    AlertsOfRules(failed > 10, suspicious > 5, critical + high > 10,
                  CountDetails(failed), CountDetails(suspicious), MassDetails(critical, high), now);
  }

  /** isSessionQuarantined: `sessionId || getCurrentSessionId()`, where the current session
    * is that of the monitor's first event; an empty or absent id is never quarantined. */
  function SessionToCheck(sessionId: string, monitorEvents: seq<Event>): string
  {
    if sessionId != "" then sessionId
    else if |monitorEvents| > 0 then monitorEvents[0].sessionId
    else ""
  }

  // ---------------------------------------------------------------------
  // The service object

  class ThreatIntelligenceService {
    var signatures: Table
    var rules: seq<Rule>
    var quarantined: seq<string>
    var alertHistory: seq<Alert>

    predicate Valid()
      reads this
    {
      NoDup(Keys(signatures)) && NoDup(quarantined)
    }

    constructor (now: int)
      ensures Valid()
      ensures signatures == DefaultSignatures(now) && rules == DefaultRules()
      ensures quarantined == [] && alertHistory == []
    {
      DefaultIdsDistinct(now);
      signatures := DefaultSignatures(now);
      rules := DefaultRules();
      quarantined := [];
      alertHistory := [];
    }

    method ScanContent(content: string, rx: Matcher) returns (threats: seq<Threat>)
      ensures threats == Scan(signatures, content, rx)
    {
      threats := ScanTable(signatures, content, rx);
    }

    method AddSignature(s: Signature)
      requires Valid()
      modifies this
      ensures Valid()
      ensures signatures == Put(old(signatures), s.id, s)
      ensures rules == old(rules) && quarantined == old(quarantined) && alertHistory == old(alertHistory)
    {
      PutKeepsNoDup(signatures, s.id, s);
      signatures := Put(signatures, s.id, s);
    }

    method RemoveSignature(id: string)
      requires Valid()
      modifies this
      ensures Valid()
      ensures signatures == Remove(old(signatures), id)
      ensures rules == old(rules) && quarantined == old(quarantined) && alertHistory == old(alertHistory)
    {
      RemoveKeepsNoDup(signatures, id);
      signatures := Remove(signatures, id);
    }

    method UpdateSignature(id: string, u: SignatureUpdate, now: int)
      requires Valid()
      modifies this
      ensures Valid()
      ensures signatures == AfterUpdate(old(signatures), id, u, now)
      ensures rules == old(rules) && quarantined == old(quarantined) && alertHistory == old(alertHistory)
    {
      var existing := Get(signatures, id);
      if existing.Some? {
        PutKeepsNoDup(signatures, id, Overlay(existing.value, u, now));
        signatures := Put(signatures, id, Overlay(existing.value, u, now));
      }
    }

    method GetSignatures() returns (r: seq<Signature>)
      ensures r == Values(signatures)
    {
      r := Values(signatures);
    }

    /** performThreatAssessment over the monitor's events of the last five minutes. */
    method AssessThreats(recent: seq<Event>, now: int)
      modifies this
      ensures alertHistory == old(alertHistory)
        + Responses(Triggers(TypeCounts(recent), SeverityCounts(recent)), now)
      ensures signatures == old(signatures) && rules == old(rules) && quarantined == old(quarantined)
    {
      var typeCounts, severityCounts := Tally(recent);
      var triggers := Triggers(typeCounts, severityCounts);
      var i := 0;
      while i < |triggers|
        invariant 0 <= i <= |triggers|
        invariant alertHistory == old(alertHistory) + Responses(triggers[..i], now)
        invariant signatures == old(signatures) && rules == old(rules) && quarantined == old(quarantined)
      {
        alertHistory := alertHistory + [Alert(now, ThreatName(triggers[i].0), High, triggers[i].1)];
        assert Responses(triggers[..i + 1], now) == Responses(triggers[..i], now) + [Alert(now, ThreatName(triggers[i].0), High, triggers[i].1)];
        i := i + 1;
      }
      assert triggers[..i] == triggers;
    }

    method GetAlertHistory() returns (r: seq<Alert>)
      ensures r == alertHistory
    {
      r := alertHistory;
    }

    /** The quarantine action (and, for `remove`, its timer firing). */
    method QuarantineSession(sessionId: string)
      requires Valid()
      modifies this
      ensures Valid()
      ensures quarantined == if sessionId != "" then SetAdd(old(quarantined), sessionId) else old(quarantined)
      ensures signatures == old(signatures) && rules == old(rules) && alertHistory == old(alertHistory)
    {
      if sessionId != "" {
        quarantined := SetAdd(quarantined, sessionId);
      }
    }

    method IsSessionQuarantined(sessionId: string, monitorEvents: seq<Event>) returns (r: bool)
      ensures r <==> SessionToCheck(sessionId, monitorEvents) != "" && SessionToCheck(sessionId, monitorEvents) in quarantined
    {
      var check := SessionToCheck(sessionId, monitorEvents);
      r := check != "" && check in quarantined;
    }

    method ClearQuarantine(sessionId: string)
      requires Valid()
      modifies this
      ensures Valid()
      ensures quarantined == SetDelete(old(quarantined), sessionId)
      ensures sessionId !in quarantined
      ensures signatures == old(signatures) && rules == old(rules) && alertHistory == old(alertHistory)
    {
      quarantined := SetDelete(quarantined, sessionId);
    }

    method GetQuarantinedSessions() returns (r: seq<string>)
      ensures r == quarantined
    {
      r := quarantined;
    }
  }

  /** The counting loop of performThreatAssessment: `counts.set(k, (counts.get(k) || 0) + 1)`. */
  method Tally(events: seq<Event>) returns (typeCounts: map<EventType, nat>, severityCounts: map<Severity, nat>)
    ensures typeCounts == TypeCounts(events) && severityCounts == SeverityCounts(events)
  {
    typeCounts := map[];
    severityCounts := map[];
    var i := 0;
    while i < |events|
      invariant 0 <= i <= |events|
      invariant typeCounts == TypeCounts(events[..i]) && severityCounts == SeverityCounts(events[..i])
    {
      var e := events[i];
      assert events[..i + 1][..i] == events[..i];
      typeCounts := typeCounts[e.eventType := Count(typeCounts, e.eventType) + 1];
      severityCounts := severityCounts[e.severity := Count(severityCounts, e.severity) + 1];
      i := i + 1;
    }
    assert events[..i] == events;
  }
}
