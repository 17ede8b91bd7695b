# yara-digital-bloom: a verified model of the site's browser-side logic

The site is a digital agency's marketing web application. Beside its static pages it ships a set of browser-side utilities and a small server function. This project models those pieces in Dafny and proves what they promise:

- **the adaptive rate limiter** (`rate_limiting.dfy`): fixed windows per `limitType:identifier` key, a suspicious-cadence violation counter, escalation to a global blocked set, and admin operations scoped by key prefix;
- **the security event log** (`security_monitoring.dfy`): a capped, append-only event list with severity-ranked alerting and retention pruning;
- **the threat signatures** (`threat_intelligence.dfy`): the signature table and content scanner, the threshold rules, the alert history and the quarantine set;
- **the Content-Security-Policy manager** (`security_headers.dfy`): the policy serialiser in the serialized-policy shape of section 2.2 of Content Security Policy Level 3, source-list editing, the bounded violation buffer, the CSRF token check and the HTML sanitizer;
- **the form validators** (`validation.dfy`) and **the contact-form endpoint** (`contact_form.dfy`): the field rules and content filters, the storage-backed attempt limiter, the endpoint's ordered rejection chain, and its HTML escaper with its decoding round trip;
- **the service worker** (`service_worker.dfy`): the request filter, the strategy classifier, the three caching strategies over an abstract cache and network, and install/activate;
- **the smaller pieces**:
  - the error buffer (`performance_monitoring.dfy`);
  - the analytics configuration and the analytics wrapper (`analytics_settings.dfy`, `analytics_events.dfy`);
  - the tracking hooks (`analytics_tracking.dfy`);
  - the sitemap and robots.txt generators, for sitemaps.org protocol 0.9 (`sitemap.dfy`);
  - the schema.org JSON-LD builder (`structured_data.dfy`);
  - the cookie-consent banner (`cookie_consent.dfy`);
  - the security status indicator and dashboard (`security_status.dfy`, `security_dashboard.dfy`);
  - the admin page's list updates and figures (`admin_page.dfy`).

Each TypeScript class whose fields change becomes a Dafny `class` with the same fields. Each method states its new state as a function of the old one (`State() == AfterX(old(State()), ...)`), and lemmas about those functions carry the properties. Pure helpers become functions with named results. `Date.now()`, random ids, storage contents and the answers of the network, the database and the mail service are parameters. Shared vocabulary lives in `common.dfy`: options, the four-level severity scale, and JavaScript's string helpers.

## Model

| member | source | states |
|---|---|---|
| RateLimiting.FirstSegment | src/utils/advanced-rate-limiting.ts:102 | the limit type the sweep reads from a key is the text before its first colon: a prefix of the key, colon-free, followed by ':' when shorter |
| RateLimiting.FirstSegmentOfKey | src/utils/advanced-rate-limiting.ts:102-137 | for a colon-free limit type, splitting the key built by getKey gives that limit type back |
| RateLimiting.AfterLimitReached | src/utils/advanced-rate-limiting.ts:111-132 | handleLimitReached changes only the hit counters, the blocked set and the monitor reports: it keeps windows and configurations, keeps the blocked list duplicate-free, and reports a rate_limit_exceeded for the type with its maxRequests (0 for an unknown type) |
| RateLimiting.Notify | src/utils/advanced-rate-limiting.ts:232 | the onLimitReached callback touches neither windows nor configurations and keeps the blocked list duplicate-free (the callback is declared at lines 49-51) |
| RateLimiting.AfterCheck | src/utils/advanced-rate-limiting.ts:174-255 | check never changes configurations, keeps the blocked list duplicate-free, and a blocked identifier gets retryAfter = 24 h with nothing changed, before the limit type is looked up |
| RateLimiting.SuspiciousTriggers | src/utils/advanced-rate-limiting.ts:143-172 | a call is flagged exactly when the key has a stored window and either its last request was under 100 ms ago, or it holds more than 80% of the maximum at a rate over 10 a second since the window opened; a key with no window is never flagged; for a stored window of a configured type, not flagged is Unflagged of that window |
| RateLimiting.FirstCallStored | src/utils/advanced-rate-limiting.ts:188-254 | a call on an unseen key is admitted with maxRequests - 1 remaining and stores a window holding only this call, opened and last used now, with nothing else changed |
| RateLimiting.FlaggedCallAdmitted | src/utils/advanced-rate-limiting.ts:203-254 | a call under 100 ms after the last one in a live window is reported as a suspicious pattern with the window's request count and records a violation on the stored window; below three violations and below the maximum it is still admitted and counted |
| RateLimiting.FlaggedCallBlocks | src/utils/advanced-rate-limiting.ts:203-225 | such a call that brings the window to three violations is reported, blocks the identifier and is answered with the one-hour block |
| RateLimiting.RapidCallsBlock | src/utils/advanced-rate-limiting.ts:174-255 | four calls 50 ms apart on an unseen key (maxRequests at least 3): three are admitted, the last two of them flagged and reported, and the fourth, flagged a third time, is answered with the one-hour block and blocks the identifier; the monitor receives three suspicious-pattern reports with 1, 2 and 3 requests |
| RateLimiting.FullWindowRefuses | src/utils/advanced-rate-limiting.ts:227-239 | an unblocked, unflagged call that finds its live window full is refused with resetTime = window start + windowMs and retryAfter = max(0, resetTime - now), and the state becomes that left by the type's onLimitReached callback |
| RateLimiting.FullWindowEscalates | src/utils/advanced-rate-limiting.ts:111-132 | with the default callback such a refusal leaves the windows alone, counts one more limit hit, reports the limit to the security monitor, and blocks the identifier exactly when three hits were counted before |
| RateLimiting.RefusedAnswers | src/utils/advanced-rate-limiting.ts:174-239 | calls that keep finding the same full window, none flagged, after h limit hits: the answers are exactly RefusalAnswers(h, window start + windowMs, times), the refusal answer per call with each call counted as a hit while the identifier is unblocked |
| RateLimiting.RefusalAnswersAt | src/utils/advanced-rate-limiting.ts:111-132 | in that sequence call k is refused with resetTime = window start + windowMs and retryAfter = max(0, resetTime - now) while h + k <= 3, and from then on gets the 24-hour block |
| RateLimiting.RefusalsBlockOnFourth | src/utils/advanced-rate-limiting.ts:111-132 | the same calls leave the identifier blocked exactly when h plus the number of calls exceeds 3, so from a clean counter the fourth refusal blocks it |
| RateLimiting.WithoutPrefix | src/utils/advanced-rate-limiting.ts:287-304 | the windows left after a prefix delete are exactly those whose key lacks the prefix, with their entries unchanged |
| RateLimiting.FreshWindowAllows | src/utils/advanced-rate-limiting.ts:188-254 | with no window or an expired one, the call opens a window at now with 1 request and is allowed with maxRequests - 1 remaining and resetTime = now + windowMs |
| RateLimiting.ThirdViolationBlocks | src/utils/advanced-rate-limiting.ts:203-225 | a flagged call whose window already holds 2 violations records the third, blocks the identifier and answers retryAfter = 1 h |
| RateLimiting.ResetThenCheckIsFresh | src/utils/advanced-rate-limiting.ts:294-297 | after reset(type, id) the next check answers as for a key never seen (the check itself is at lines 188-200) |
| RateLimiting.FourthLimitHitBlocks | src/utils/advanced-rate-limiting.ts:111-126 | n limit hits from a clean counter leave the counter at n, and the identifier is blocked exactly when n > 3, i.e. from the fourth hit |
| RateLimiting.Run | src/utils/advanced-rate-limiting.ts:174-255 | consecutive checks of one key answer once per call |
| RateLimiting.CalmStepInWindow | src/utils/advanced-rate-limiting.ts:203-254 | an unflagged call inside a live window adds one request and is allowed with the remaining count while below the maximum, and is refused without counting once at it |
| RateLimiting.CalmStep | src/utils/advanced-rate-limiting.ts:193-254 | an unflagged call that finds n requests in the window (or no window yet, then n = 0 and it opens one at its time) keeps the window start, counts one more while below maxRequests, and is answered as call n of the window |
| RateLimiting.WindowAdmitsUpToMax | src/utils/advanced-rate-limiting.ts:193-254 | within one window (the key's existing one, or the one its first call opens) with no call flagged, call k is allowed with maxRequests - (n + k + 1) remaining while n + k < maxRequests, and refused after; from a key's first call (n = 0) exactly the first maxRequests calls are admitted and every later one refused |
| RateLimiting.FirstCallOpensWindow | src/utils/advanced-rate-limiting.ts:193-254 | the first call of a run on an unseen key opens the window at its time and is admitted |
| RateLimiting.CleanupKeepsAnswers | src/utils/advanced-rate-limiting.ts:98-109 | the five-minute sweep removes only windows that a later check would restart anyway, so no answer changes (the expiry test of check is at line 193) |
| RateLimiting.UnblockForgets | src/utils/advanced-rate-limiting.ts:345-354 | after unblockIdentifier the identifier is not blocked and no limit type keeps a hit counter for it |
| RateLimiting.ResetTypeClearsStats | src/utils/advanced-rate-limiting.ts:298-339 | after resetting a whole limit type its stats report no requests, windows or violations |
| RateLimiting.AdvancedRateLimit.constructor | src/utils/advanced-rate-limiting.ts:32-89 | a new limiter has no windows, nothing blocked, and the five default limits |
| RateLimiting.AdvancedRateLimit.HandleLimitReached | src/utils/advanced-rate-limiting.ts:111-126 | the new state is AfterLimitReached of the old |
| RateLimiting.AdvancedRateLimit.Check | src/utils/advanced-rate-limiting.ts:174-255 | the answer and the new state are those of AfterCheck, or the unknown-type error |
| RateLimiting.AdvancedRateLimit.CheckContactForm | src/utils/advanced-rate-limiting.ts:258-260 | check of "contact_form" with the e-mail lower-cased |
| RateLimiting.AdvancedRateLimit.CheckLoginAttempts | src/utils/advanced-rate-limiting.ts:262-264 | check of "login_attempts" with the identifier lower-cased |
| RateLimiting.AdvancedRateLimit.CheckAPIRequests | src/utils/advanced-rate-limiting.ts:266-268 | check of "api_requests" |
| RateLimiting.AdvancedRateLimit.CheckSearchRequests | src/utils/advanced-rate-limiting.ts:270-272 | check of "search_requests" |
| RateLimiting.AdvancedRateLimit.CheckFileUploads | src/utils/advanced-rate-limiting.ts:274-276 | check of "file_uploads" |
| RateLimiting.AdvancedRateLimit.AddCustomLimit | src/utils/advanced-rate-limiting.ts:279-281 | registers or replaces the configuration of that type and changes nothing else |
| RateLimiting.AdvancedRateLimit.DeletePrefixed | src/utils/advanced-rate-limiting.ts:287-291 | the loop deletes exactly the windows whose key starts with the prefix |
| RateLimiting.AdvancedRateLimit.RemoveLimit | src/utils/advanced-rate-limiting.ts:283-292 | drops the configuration and every window of that type |
| RateLimiting.AdvancedRateLimit.Reset | src/utils/advanced-rate-limiting.ts:294-306 | a non-empty identifier drops its one window; an absent or empty one drops every window of the type |
| RateLimiting.AdvancedRateLimit.CleanupExpiredEntries | src/utils/advanced-rate-limiting.ts:98-109 | deletes exactly the windows of known types older than twice their window length |
| RateLimiting.AdvancedRateLimit.SumWindows | src/utils/advanced-rate-limiting.ts:314-324 | the first loop of getStats sums requests and violations and counts windows over the keys with the prefix |
| RateLimiting.AdvancedRateLimit.CountBlocked | src/utils/advanced-rate-limiting.ts:326-331 | the second loop counts the hit counters under the prefix that reached 3 |
| RateLimiting.AdvancedRateLimit.GetStats | src/utils/advanced-rate-limiting.ts:308-339 | returns StatsOf the current state |
| RateLimiting.AdvancedRateLimit.IsIdentifierBlocked | src/utils/advanced-rate-limiting.ts:341-343 | true exactly for blocked identifiers |
| RateLimiting.AdvancedRateLimit.UnblockIdentifier | src/utils/advanced-rate-limiting.ts:345-354 | the new state is AfterUnblock of the old |
| RateLimiting.AdvancedRateLimit.GetBlockedIdentifiers | src/utils/advanced-rate-limiting.ts:356-358 | the blocked identifiers, each once, in the order they were blocked |
| RateLimiting.AdvancedRateLimit.ExpireSuspicionBlock | src/utils/advanced-rate-limiting.ts:218 | the one-hour timer removes the identifier from the blocked set |
| RateLimiting.AdvancedRateLimit.ExpireLimitBlock | src/utils/advanced-rate-limiting.ts:122-125 | the 24-hour timer unblocks the identifier and forgets its hit counter |
| SecurityMonitoring.Merge | src/utils/security-monitoring.ts:398-400 | updateConfig's spread: a key the update carries replaces the old value, a key it omits is kept, and nested records are replaced whole |
| SecurityMonitoring.ShouldAlertMonotone | src/utils/security-monitoring.ts:350-356 | if one severity alerts, every higher severity alerts too |
| SecurityMonitoring.ShouldAlertExtremes | src/utils/security-monitoring.ts:350-356 | critical events always alert; low events alert exactly when the level is low |
| SecurityMonitoring.AfterLog | src/utils/security-monitoring.ts:301-348 | logging never changes the configuration, the session id or the callbacks |
| SecurityMonitoring.InvalidInputDetails | src/utils/security-monitoring.ts:432-443 | the details carry a value exactly when one was given, cut to at most 100 characters |
| SecurityMonitoring.AlertIff | src/utils/security-monitoring.ts:329-365 | the event is always kept; it is persisted exactly when the session is within its cap; every callback gets it, in order, exactly when it is within the cap, alerts are on and its severity reaches the level |
| SecurityMonitoring.DeliveriesInOrder | src/utils/security-monitoring.ts:358-366 | triggerAlert calls each callback once, in registration order, with the event |
| SecurityMonitoring.RetentionBounds | src/utils/security-monitoring.ts:267-273 | cleanup keeps only events newer than the retention cutoff, and of those the newest maxEvents, or all when maxEvents is 0 |
| SecurityMonitoring.ChecksRaiseAlarms | src/utils/security-monitoring.ts:236-265 | the periodic check appends a failed-login alarm exactly when the last five minutes hold at least the threshold of failed logins, and then a cluster alarm under the same rule for suspicious activity |
| SecurityMonitoring.TypeCountsSplit | src/utils/security-monitoring.ts:386-388 | the events of one type and the events of the other types together are all events |
| SecurityMonitoring.SecurityMonitor.constructor | src/utils/security-monitoring.ts:61-80 | the default configuration, and the stored events still within the retention period (the stored events are loaded at lines 278-290) |
| SecurityMonitoring.SecurityMonitor.TriggerAlert | src/utils/security-monitoring.ts:358-366 | appends one delivery per callback and changes nothing else |
| SecurityMonitoring.SecurityMonitor.LogEvent | src/utils/security-monitoring.ts:301-348 | the new state is AfterLog of the old with the new event |
| SecurityMonitoring.SecurityMonitor.PerformSecurityChecks | src/utils/security-monitoring.ts:236-265 | the new state is AfterChecks of the old |
| SecurityMonitoring.SecurityMonitor.CleanupOldEvents | src/utils/security-monitoring.ts:267-276 | the new state is AfterCleanup of the old |
| SecurityMonitoring.SecurityMonitor.GetRecentEvents | src/utils/security-monitoring.ts:377-380 | the events strictly newer than now - window |
| SecurityMonitoring.SecurityMonitor.GetAllEvents | src/utils/security-monitoring.ts:382-384 | all events, in order |
| SecurityMonitoring.SecurityMonitor.GetEventsByType | src/utils/security-monitoring.ts:386-388 | the events of that type |
| SecurityMonitoring.SecurityMonitor.GetEventsBySeverity | src/utils/security-monitoring.ts:390-392 | the events of that severity |
| SecurityMonitoring.SecurityMonitor.OnAlert | src/utils/security-monitoring.ts:394-396 | appends the callback and changes nothing else |
| SecurityMonitoring.SecurityMonitor.UpdateConfig | src/utils/security-monitoring.ts:398-400 | merges the update into the configuration and changes nothing else |
| SecurityMonitoring.SecurityMonitor.GetConfig | src/utils/security-monitoring.ts:402-404 | the configuration |
| SecurityMonitoring.SecurityMonitor.ReportFailedLogin | src/utils/security-monitoring.ts:407-414 | logs a medium failed_login whose reason defaults to "invalid_credentials" |
| SecurityMonitoring.SecurityMonitor.ReportSuspiciousActivity | src/utils/security-monitoring.ts:416-422 | logs a high suspicious_activity whose details are the reason overlaid by the given details |
| SecurityMonitoring.SecurityMonitor.ReportRateLimitExceeded | src/utils/security-monitoring.ts:424-430 | logs a medium rate_limit_exceeded with the endpoint and the limit |
| SecurityMonitoring.SecurityMonitor.ReportInvalidInput | src/utils/security-monitoring.ts:432-443 | logs a low invalid_input with the field, the value's length, the reason and the truncated value |
| ThreatIntelligence.DefaultSignatures | src/utils/threat-intelligence.ts:53-120 | the table holds the six default signatures, keyed by their ids, in this order |
| ThreatIntelligence.Matches | src/utils/threat-intelligence.ts:380-414 | a string pattern yields itself as its one match exactly when evaluateStringPattern holds, and nothing otherwise |
| ThreatIntelligence.Scan | src/utils/threat-intelligence.ts:373-400 | at most one report per table entry, each for an enabled signature with at least one match |
| ThreatIntelligence.ScanReports | src/utils/threat-intelligence.ts:373-400 | a report is produced exactly for a table entry that is enabled and whose pattern matched, carrying those matches |
| ThreatIntelligence.ScanAppend | src/utils/threat-intelligence.ts:376-397 | scanning runs through the table in order: scanning two parts is scanning each part, reports concatenated |
| ThreatIntelligence.DefaultSymbolicNeverReported | src/utils/threat-intelligence.ts:402-414 | with the default table, the two placeholder signatures are never reported, whatever the content |
| ThreatIntelligence.Overlay | src/utils/threat-intelligence.ts:424-429 | the update's fields replace the old ones, the fields it omits are kept, and lastUpdated is now |
| ThreatIntelligence.UpdateTouchesOnlyItsId | src/utils/threat-intelligence.ts:424-429 | updateSignature keeps the key set, leaves every other entry alone, changes nothing for an unknown id, and overlays the named entry |
| ThreatIntelligence.TallyCounts | src/utils/threat-intelligence.ts:193-213 | the per-type and per-severity maps count exactly the events of each type and each severity |
| ThreatIntelligence.TriggerRules | src/utils/threat-intelligence.ts:215-243 | credential stuffing fires exactly above 10 failed logins, scanning exactly above 5 suspicious activities, mass exploitation exactly above 10 critical plus high events; at most three fire |
| ThreatIntelligence.TriggerThresholds | src/utils/threat-intelligence.ts:193-243 | the same three thresholds, stated on the counts of the recent events themselves |
| ThreatIntelligence.TypeCountsSum | src/utils/threat-intelligence.ts:203-209 | the per-type counts add up to the number of events examined |
| ThreatIntelligence.SeverityCountsSum | src/utils/threat-intelligence.ts:203-209 | the per-severity counts add up to the number of events examined |
| ThreatIntelligence.DefaultRulesNeverFire | src/utils/threat-intelligence.ts:122-171 | no default policy rule holds for any threat the assessment raises, since none of their conditions matches the threat names and details passed in (the rule evaluation is at lines 251-258 and 279-296) |
| ThreatIntelligence.Responses | src/utils/threat-intelligence.ts:245-252 | the history gains exactly one entry per raised threat, in the order raised, each with severity high, the threat's name and its details |
| ThreatIntelligence.AssessmentAlerts | src/utils/threat-intelligence.ts:215-252 | over any events, the alerts an assessment appends number exactly the threshold rules that fired; each is stamped now with severity high; the alert of each rule, with its counts, is there exactly when that rule fired; and no alert names a rule that did not fire |
| ThreatIntelligence.ThreatIntelligenceService.constructor | src/utils/threat-intelligence.ts:40-171 | the default signatures and rules, no quarantined session and an empty history |
| ThreatIntelligence.ThreatIntelligenceService.ScanContent | src/utils/threat-intelligence.ts:373-400 | the reports are Scan of the signature table |
| ThreatIntelligence.ScanTable | src/utils/threat-intelligence.ts:376-397 | the scanning loop collects exactly Scan of the table it walks |
| ThreatIntelligence.ThreatIntelligenceService.AddSignature | src/utils/threat-intelligence.ts:416-418 | the signature is stored under its id, replacing an entry with that id in place, and nothing else changes |
| ThreatIntelligence.ThreatIntelligenceService.RemoveSignature | src/utils/threat-intelligence.ts:420-422 | the entry with that id is removed and nothing else changes |
| ThreatIntelligence.ThreatIntelligenceService.UpdateSignature | src/utils/threat-intelligence.ts:424-429 | the table is AfterUpdate of the old one and nothing else changes |
| ThreatIntelligence.ThreatIntelligenceService.GetSignatures | src/utils/threat-intelligence.ts:431-433 | the signatures in table order |
| ThreatIntelligence.ThreatIntelligenceService.AssessThreats | src/utils/threat-intelligence.ts:193-252 | the history grows by exactly the responses to the threats the recent events trigger, and nothing else changes |
| ThreatIntelligence.ThreatIntelligenceService.GetAlertHistory | src/utils/threat-intelligence.ts:447-454 | the whole history |
| ThreatIntelligence.ThreatIntelligenceService.QuarantineSession | src/utils/threat-intelligence.ts:340-352 | a non-empty session id joins the quarantined set; an empty one changes nothing |
| ThreatIntelligence.ThreatIntelligenceService.IsSessionQuarantined | src/utils/threat-intelligence.ts:456-459 | true exactly when the given id, or else the first event's session id, is non-empty and quarantined (quarantining is at lines 364-369) |
| ThreatIntelligence.ThreatIntelligenceService.ClearQuarantine | src/utils/threat-intelligence.ts:461-463 | the session leaves the quarantined set and nothing else changes |
| ThreatIntelligence.ThreatIntelligenceService.GetQuarantinedSessions | src/utils/threat-intelligence.ts:465-467 | the quarantined sessions in insertion order |
| ThreatIntelligence.Tally | src/utils/threat-intelligence.ts:200-209 | the counting loop builds exactly the per-type and per-severity tallies |
| SecurityHeaders.Kebab | src/utils/security-headers.ts:176 | the kebab form is no shorter than the name and every character is a hyphen or the lower-case form of a name character |
| SecurityHeaders.KebabRoundTrip | src/utils/security-headers.ts:176 | for an identifier of letters and digits, turning the kebab form back into camel case restores the name, so distinct directive names give distinct policy names |
| SecurityHeaders.PartsAppend | src/utils/security-headers.ts:170-179 | the policy parts of two directive lists are the parts of each, in entry order |
| SecurityHeaders.BuildCSPString | src/utils/security-headers.ts:167-182 | the loop builds exactly the policy string BuildCSP specifies |
| SecurityHeaders.SilentDirectives | src/utils/security-headers.ts:171-178 | a false flag or an empty source list contributes nothing to the policy |
| SecurityHeaders.PolicyRoundTrip | src/utils/security-headers.ts:167-182 | splitting a built policy at semicolons and spaces gives back each non-silent directive's kebab name with its sources, in order |
| SecurityHeaders.EmptyPolicyReadsBack | src/utils/security-headers.ts:181 | a policy with no parts reads back as no directives |
| SecurityHeaders.PartsSplitBack | src/utils/security-headers.ts:181 | joining parts with "; " and splitting at ';' gives the first part and each later part behind one space |
| SecurityHeaders.Dedupe | src/utils/security-headers.ts:253-255 | the first-occurrence filter leaves no duplicates and the same elements |
| SecurityHeaders.DedupeOfDistinct | src/utils/security-headers.ts:253-255 | a list without duplicates passes the filter unchanged |
| SecurityHeaders.DedupeKeepsPrefix | src/utils/security-headers.ts:253-255 | existing sources keep their places ahead of the added ones |
| SecurityHeaders.RemainingSources | src/utils/security-headers.ts:265-267 | a source stays exactly when it was listed and is not among those removed |
| SecurityHeaders.SpreadGet | src/utils/security-headers.ts:243-246 | after the spread a directive the update names has the update's value, any other keeps the default |
| SecurityHeaders.AddToDirectiveShape | src/utils/security-headers.ts:248-258 | adding to a source-list directive keeps every key and every other directive, and sets that one to its old sources then the new ones, without duplicates |
| SecurityHeaders.RemoveFromDirectiveShape | src/utils/security-headers.ts:260-270 | removing from a source-list directive keeps every key and every other directive, and filters the removed sources out of that one |
| SecurityHeaders.EditNeedsSourceList | src/utils/security-headers.ts:251-263 | a directive that is absent or a flag cannot be added to or removed from |
| SecurityHeaders.ViolationSeverity | src/utils/security-headers.ts:230-241 | never critical; high exactly when the directive mentions script-src; medium exactly when it does not but mentions object-src or frame-src |
| SecurityHeaders.ViolationBufferBounded | src/utils/security-headers.ts:194-202 | the buffer keeps at most 100 records, ends with the new one, and is the tail of the old buffer plus the new record |
| SecurityHeaders.CsrfPrecedence | src/utils/security-headers.ts:304-320 | a non-empty session token decides; otherwise a non-empty meta token decides; an empty submission never validates |
| SecurityHeaders.ReplaceAll | src/utils/security-headers.ts:326-331 | a global replace with the empty string never lengthens the text |
| SecurityHeaders.ReplaceAllKeepsLength | src/utils/security-headers.ts:326-331 | a replace that keeps the length changed nothing and found no match anywhere |
| SecurityHeaders.SanitizeHtml | src/utils/security-headers.ts:323-332 | the six replaces never lengthen the text |
| SecurityHeaders.SanitizeKeepsLength | src/utils/security-headers.ts:323-332 | when sanitizing keeps the length, none of the six patterns occurs in the input |
| SecurityHeaders.SinglePassLeavesJavascript | src/utils/security-headers.ts:328 | "javajavascript:script:" comes out as "javascript:": one pass of the replace leaves the scheme in place |
| SecurityHeaders.SanitizeFully | src/utils/security-headers.ts:323-332 | repeating the passes until nothing changes ends in a text none of the patterns matches, no longer than the input |
| SecurityHeaders.SanitizeFullyRemovesJavascript | src/utils/security-headers.ts:328 | the repeated sanitizer's output never contains "javascript:" in any letter case |
| SecurityHeaders.SanitizedIsFixedPoint | src/utils/security-headers.ts:323-332 | text none of the patterns matches is left unchanged by both sanitizers |
| SecurityHeaders.InitialPolicy | src/utils/security-headers.ts:100-110 | the policy on the page is kept when there is one; a page holding only a report-only policy tag gets none, since hasExistingCSP counts that tag too; otherwise the default directives are built and applied |
| SecurityHeaders.SecurityHeadersManager.constructor | src/utils/security-headers.ts:24-110 | the default directives, no violations, and the page's policy: the existing one kept, none added when only a report-only tag is present (hasExistingCSP at lines 147-153), otherwise the built default policy; the violation list is declared at lines 34-37 |
| SecurityHeaders.SecurityHeadersManager.ApplyCSP | src/utils/security-headers.ts:155-165 | the page's policy becomes the built string and nothing else changes |
| SecurityHeaders.SecurityHeadersManager.UpdateCSP | src/utils/security-headers.ts:243-246 | applies the defaults overlaid with the update |
| SecurityHeaders.SecurityHeadersManager.AddToDirective | src/utils/security-headers.ts:248-258 | applies the added directives, or leaves the policy alone when the directive has no source list |
| SecurityHeaders.SecurityHeadersManager.RemoveFromDirective | src/utils/security-headers.ts:260-270 | applies the reduced directives, or leaves the policy alone when the directive has no source list |
| SecurityHeaders.SecurityHeadersManager.HandleCSPViolation | src/utils/security-headers.ts:192-228 | the buffer becomes AfterViolation of the old one and the severity reported is ViolationSeverity of the directive |
| SecurityHeaders.SecurityHeadersManager.GetCSPViolations | src/utils/security-headers.ts:272-277 | the stored violations |
| SecurityHeaders.SecurityHeadersManager.ClearViolations | src/utils/security-headers.ts:279-281 | no violations remain and the policy is unchanged |
| Validation.CountOfAppend | src/utils/validation.ts:14-15 | the number of '@' characters of a concatenation is the sum of the parts' numbers |
| Validation.CountOfZero | src/utils/validation.ts:14-15 | a character occurs zero times exactly when it is absent |
| Validation.SplitLength | src/utils/validation.ts:14-15 | splitting at a character gives one more part than its occurrences |
| Validation.EmailShapeIff | src/utils/validation.ts:11-31 | the refinement accepts exactly the addresses with a single '@' whose local part (at most 64, not starting or ending with '.', no "..") and domain (at most 253, containing '.') pass |
| Validation.EmailIssues | src/utils/validation.ts:6-31 | an address has no issue exactly when it is non-empty, passes the library's email test, is at most 254 long and has the refined shape |
| Validation.PasswordIssues | src/utils/validation.ts:59-78 | a password has no issue exactly when it is 8 to 128 long with an upper-case letter, a lower-case letter, a digit and a special character |
| Validation.AcceptedPasswordHasFourKinds | src/utils/validation.ts:59-78 | an accepted password is 8 to 128 long and has positions holding each of the four character kinds |
| Validation.FourKindsAccepted | src/utils/validation.ts:59-78 | conversely, a password of allowed length with the four kinds at some positions is accepted |
| Validation.EmptyPasswordIssues | src/utils/validation.ts:59-78 | the empty password fails five rules: length and all four kinds |
| Validation.NameIssues | src/utils/validation.ts:81-89 | a name has no issue exactly when it is 2 to 50 long and made of letters, whitespace, hyphens and apostrophes |
| Validation.HasRepeatIff | src/utils/validation.ts:100 | the repeat check holds exactly when some character other than a line break is followed by four copies of itself |
| Validation.MessageIssues | src/utils/validation.ts:92-104 | a message has no issue exactly when it is 10 to 5000 long with no five-fold repeat |
| Validation.RepeatIgnoresLineBreaks | src/utils/validation.ts:100 | five spaces are a repeat, five line breaks are not, since '.' does not match a line break |
| Validation.CompanyIssues | src/utils/validation.ts:107-114 | a company name has no issue exactly when it is 1 to 100 long and made of the allowed characters |
| Validation.ContainsAnyCIIff | src/utils/validation.ts:185-194 | a text contains one of the words, ignoring case, exactly when some word of the list occurs in its lower-case form |
| Validation.XssIffSanitizerShortens | src/utils/validation.ts:209-220 | the XSS check holds exactly when sanitizeHTML's six removals would shorten the text |
| Validation.QuoteIsInjection | src/utils/validation.ts:197-206 | a text with a quote or an angle bracket anywhere is flagged as SQL injection |
| Validation.TextFields | src/utils/validation.ts:235 | the fields checked are the non-empty ones among the name, the project details and a present company name |
| Validation.CheckContent | src/utils/validation.ts:232-246 | the loop accepts exactly when no checked field is flagged by the profanity, SQL or XSS check |
| Validation.EmptyCompanyRejected | src/utils/validation.ts:107-114 | a present but empty company name rejects the form: only an absent one is optional (the optional-field rule is at line 227) |
| Validation.AcceptedNameHasNoApostrophe | src/utils/validation.ts:238-239 | an apostrophe passes the name rule but the SQL check then rejects the whole form (the name rule is at line 87 and the SQL check at line 199) |
| Validation.RefusalShape | src/utils/validation.ts:150-160 | a call is refused exactly inside the window with the attempts used up; a refusal stores nothing and reports the remaining minutes rounded up, at least 1 |
| Validation.WindowRun | src/utils/validation.ts:150-167 | inside one window, with some attempts used, call i is allowed exactly when the used attempts plus i stay under the maximum |
| Validation.FirstAttemptsAllowed | src/utils/validation.ts:144-177 | from an empty record, within one window, the first maxAttempts calls (and always the first) are allowed and the rest refused |
| Validation.AttemptStore.CheckRateLimit | src/utils/validation.ts:144-182 | with storage available the decision and the stored record are RateStep of the record under "rate_limit_" + identifier; without storage every call is allowed and nothing is stored |
| Validation.CollapseSpaces | src/utils/validation.ts:261 | the result is no longer than the input, its only whitespace is single spaces, and every other character comes from the input |
| Validation.SanitizeText | src/utils/validation.ts:258-264 | the result is at most 5000 long, has no angle bracket and has no whitespace other than spaces |
| Validation.CollapseNoSpace | src/utils/validation.ts:261 | a text without whitespace is unchanged by the collapse |
| Validation.SanitizeTextKeepsClean | src/utils/validation.ts:258-264 | a text of at most 5000 characters without whitespace or angle brackets is unchanged |
| Validation.ValidateFileErrors | src/utils/validation.ts:267-300 | the file is valid exactly when it is within the size, of an allowed type and not of a suspicious extension; each failed rule adds its own message, at most three |
| Validation.UpperCaseExeSuspicious | src/utils/validation.ts:289-292 | the extension check ignores letter case |
| ContactForm.FirstMissing | supabase/functions/contact-form/index.ts:51-60 | a field is reported only if it is required and missing, and none is reported exactly when every required field is present and not blank |
| ContactForm.FirstMissingAt | supabase/functions/contact-form/index.ts:51-60 | the field reported is the first missing one in the fixed order |
| ContactForm.MatchesEmailSound | supabase/functions/contact-form/index.ts:63 | an address the scanner accepts has the shape of the regular expression: a non-empty run without whitespace or '@', an '@', and a domain with a dot between non-empty runs |
| ContactForm.MatchesEmailComplete | supabase/functions/contact-form/index.ts:63 | an address with that shape at some '@' and some later dot is accepted |
| ContactForm.MatchesEmailIff | supabase/functions/contact-form/index.ts:63 | the scanner accepts exactly the addresses the regular expression matches |
| ContactForm.ReplaceChar | supabase/functions/contact-form/index.ts:124-131 | one global replace leaves no occurrence of the character when the substitute has none, and introduces only characters of the input or of the substitute |
| ContactForm.ReplaceCharAppend | supabase/functions/contact-form/index.ts:124-131 | a global replace of one character works piece by piece over a concatenation |
| ContactForm.SanitizeHtml | supabase/functions/contact-form/index.ts:124-131 | the escaped text holds no angle bracket and no quote of either kind |
| ContactForm.SanitizeAppend | supabase/functions/contact-form/index.ts:124-131 | escaping a concatenation escapes each piece |
| ContactForm.AmpSurvives | supabase/functions/contact-form/index.ts:126-130 | "&amp;" made by the first replace is left alone by the four later ones |
| ContactForm.SanitizeOneChar | supabase/functions/contact-form/index.ts:124-131 | one character escapes to its own entity or stays as it is |
| ContactForm.SanitizeIsEscape | supabase/functions/contact-form/index.ts:124-131 | the five sequential replaces equal escaping each character on its own, so no entity is escaped twice |
| ContactForm.DecodeEscapeAll | supabase/functions/contact-form/index.ts:124-131 | decoding the entities of per-character escaping gives back the text |
| ContactForm.SanitizeRoundTrip | supabase/functions/contact-form/index.ts:124-131 | decoding the sanitized text gives back exactly what the visitor typed |
| ContactForm.OrElse | supabase/functions/contact-form/index.ts:161-162 | the value when it is truthy, otherwise the fallback (the same fallback also appears at lines 102, 121 and 205) |
| ContactForm.CompanyEntries | supabase/functions/contact-form/index.ts:141-184 | the emails carry a Company line exactly when the company name is truthy |
| ContactForm.Screen | supabase/functions/contact-form/index.ts:42-70 | a body passes exactly when the honeypot is blank, no required field is missing and the email matches the pattern |
| ContactForm.ScreenedOut | supabase/functions/contact-form/index.ts:41-70 | a POST whose body fails a check gets that check's rejection |
| ContactForm.ScreenedIn | supabase/functions/contact-form/index.ts:72-227 | a POST whose body passes goes on to the hourly limit, the insert and the emails |
| ContactForm.FindMissing | supabase/functions/contact-form/index.ts:51-60 | the loop over the required fields returns the first missing one |
| ContactForm.CheckBody | supabase/functions/contact-form/index.ts:41-70 | the checks in order give the same rejection as Screen |
| ContactForm.SubmissionTable.constructor | supabase/functions/contact-form/index.ts:97-108 | the table starts with the rows given |
| ContactForm.SubmissionTable.Handle | supabase/functions/contact-form/index.ts:22-242 | the outcome is Respond of the old rows, and the table grows by exactly the row inserted, if any |
| ContactForm.SubmissionTable.SaveAndNotify | supabase/functions/contact-form/index.ts:78-227 | the outcome is Submit of the old rows, and the table grows by exactly the row inserted, if any |
| ContactForm.ChecksBeforeInsert | supabase/functions/contact-form/index.ts:97-108 | nothing is inserted unless the request is a POST whose body passed every check (the checks are at lines 26-70) |
| ContactForm.StoredIff | supabase/functions/contact-form/index.ts:26-116 | a submission is stored exactly when it is a parsed POST, not spam, complete, well addressed, under the hourly limit or with a failed limit query, and the insert succeeds |
| ContactForm.StoredAnswersSuccess | supabase/functions/contact-form/index.ts:97-227 | a stored submission answers 200 with its id, stores the body's fields, and attempts the admin notice and then the confirmation to the visitor's address |
| ContactForm.MailFailuresOnlyLogged | supabase/functions/contact-form/index.ts:160-215 | whichever emails fail, the response, the stored row and the emails attempted are the same |
| ContactForm.MethodGate | supabase/functions/contact-form/index.ts:26-35 | OPTIONS is a bare preflight and any other non-POST method is 405, with nothing stored and no email |
| ContactForm.HoneypotFirst | supabase/functions/contact-form/index.ts:42-48 | a filled honeypot is rejected as spam before any field is looked at |
| ContactForm.MissingFieldNamed | supabase/functions/contact-form/index.ts:51-60 | the first missing required field, in the fixed order, is the one named in the 400 answer |
| ContactForm.HourlyLimit | supabase/functions/contact-form/index.ts:78-94 | a failed limit query never blocks; a working one answers 429 exactly at three or more rows for that address in the last hour |
| ContactForm.InsertKeepsHourlyCap | supabase/functions/contact-form/index.ts:78-108 | with a working query, an address never has more than three rows in the hour after a successful insert |
| ContactForm.CompanyLineIff | supabase/functions/contact-form/index.ts:141-184 | both emails carry a Company line exactly when the company name is truthy |
| ContactForm.EmptyCompanyOmitted | supabase/functions/contact-form/index.ts:141 | an empty or absent company name is stored as null and leaves the Company line out of both emails (the stored value is set at line 102 and the confirmation line at line 184) |
| ContactForm.AdminMailEscaped | supabase/functions/contact-form/index.ts:134-158 | every value the visitor typed reaches the admin notice escaped, except the details, whose line breaks become br tags |
| ContactForm.UserMailEscaped | supabase/functions/contact-form/index.ts:174-202 | every value the visitor typed reaches the confirmation escaped; only the site links are not |
| ServiceWorker.FindMatch | public/sw.js:113-148 | the loop over a pattern list finds a match exactly when some pattern of the list tests true |
| ServiceWorker.SupabaseAuthRedundant | public/sw.js:106-109 | every URL the supabase-then-/auth/ pattern catches is already caught by the /auth pattern |
| ServiceWorker.SensitiveLeftAlone | public/sw.js:104-117 | a request whose URL holds /auth, /admin or /profile is never intercepted |
| ServiceWorker.StrategyFor | public/sw.js:128-152 | cache-first exactly when a static pattern matches; stale-while-revalidate exactly when no static or network-first pattern matches and a page pattern does; network-first otherwise |
| ServiceWorker.GetCacheStrategy | public/sw.js:128-152 | the three loops return StrategyFor of the URL |
| ServiceWorker.Dispatch | public/sw.js:155-166 | any name other than the two named strategies falls back to network-first |
| ServiceWorker.DispatchName | public/sw.js:120-166 | dispatching a strategy's name runs that strategy |
| ServiceWorker.ImageIsCacheFirst | public/sw.js:130-134 | a .png URL is served cache-first (the image pattern is at line 21) |
| ServiceWorker.Open | public/sw.js:171 | opening a cache adds it when absent and leaves every existing cache as it was (caches are also opened at lines 51, 198 and 230) |
| ServiceWorker.Lookup | public/sw.js:172-231 | a match exists exactly when that cache exists and holds that key |
| ServiceWorker.CachePut | public/sw.js:180-236 | a put makes that key answer with the response and changes no other entry |
| ServiceWorker.CachePutOk | public/sw.js:179-236 | storing only ok responses keeps every cached response ok |
| ServiceWorker.OpenOk | public/sw.js:171 | opening a cache keeps every cached response ok (caches are also opened at lines 51, 198 and 230) |
| ServiceWorker.HandleKeepsOk | public/sw.js:155-267 | whatever the strategy and the network, the caches only ever hold ok responses |
| ServiceWorker.CacheHitServed | public/sw.js:169-176 | a cache-first hit in the static cache and a stale-while-revalidate hit in the dynamic cache are served from the cache whatever the network does (stale-while-revalidate is at lines 229-251) |
| ServiceWorker.NetworkFirstSpec | public/sw.js:193-226 | a network response is served as it is; an ok one is stored in the dynamic cache, a non-ok one leaves the caches exactly as they were (no cache is created); after a network failure the dynamic cache is opened to look for a cached entry |
| ServiceWorker.NetworkFirstPrefersNetwork | public/sw.js:193-226 | with a working network the network's response is served; with none and no cached entry (nor cached root for a navigation) the offline 503 is |
| ServiceWorker.Activated | public/sw.js:67-87 | after activation exactly the three known caches that existed remain, with their contents |
| ServiceWorker.Resolve | public/sw.js:54 | each static asset path is resolved against the origin |
| ServiceWorker.StoreAllFacts | public/sw.js:54 | storing all fetched assets keeps responses ok and makes every asset answer |
| ServiceWorker.StoreAllKeeps | public/sw.js:54 | storing assets never loses an existing static entry |
| ServiceWorker.InstallFacts | public/sw.js:47-64 | install caches every static asset when all fetches succeed, and when one fails only opens the static cache, storing nothing |
| ServiceWorker.Worker.constructor | public/sw.js:1-44 | the worker starts with its origin and the caches already present |
| ServiceWorker.Worker.Install | public/sw.js:47-64 | the caches become Installed of the old ones |
| ServiceWorker.Worker.Activate | public/sw.js:67-87 | the caches become Activated of the old ones |
| ServiceWorker.Worker.CacheFirstFetch | public/sw.js:169-190 | the response and the new caches are those CacheFirstSpec gives |
| ServiceWorker.Worker.NetworkFirstFetch | public/sw.js:193-226 | the response and the new caches are those NetworkFirstSpec gives |
| ServiceWorker.Worker.StaleWhileRevalidateFetch | public/sw.js:229-267 | the response and the new caches are those StaleWhileRevalidateSpec gives |
| ServiceWorker.Worker.HandleRequest | public/sw.js:155-166 | the response and the new caches are those HandleSpec gives for the strategy named |
| ServiceWorker.Worker.OnFetch | public/sw.js:90-125 | a request that is not GET, not http(s) or sensitive is left to the browser with the caches untouched; any other is answered by the strategy StrategyFor picks |
| PerformanceMonitoring.DetermineSeverity | src/utils/performance-monitoring.ts:210-235 | no error is low; a critical name is critical; a high name is high; otherwise medium exactly when the message mentions "network" in any case, and low else |
| PerformanceMonitoring.NameOutranksMessage | src/utils/performance-monitoring.ts:210-235 | a TypeError is critical and a RangeError high whatever their messages say |
| PerformanceMonitoring.OrDefault | src/utils/performance-monitoring.ts:241-242 | a present non-empty value is kept, anything else becomes the default |
| PerformanceMonitoring.Fill | src/utils/performance-monitoring.ts:237-253 | the report's type defaults to javascript, its severity to medium and an empty message to "Unknown error"; the other fields are copied from the partial report, the stamp and the session |
| PerformanceMonitoring.Push | src/utils/performance-monitoring.ts:255-260 | the buffer keeps at most 50 reports, ends with the new one, and is the tail of the old buffer plus the new report |
| PerformanceMonitoring.NoticeOf | src/utils/performance-monitoring.ts:268-278 | the notice to the security monitor keeps the report's severity, type and file, and at most the first 200 characters of its message |
| PerformanceMonitoring.AfterReport | src/utils/performance-monitoring.ts:237-280 | the report is buffered, sent exactly when it is critical, and noticed exactly when a security monitor is attached; metrics and session are kept |
| PerformanceMonitoring.PushIsSliceLast | src/utils/performance-monitoring.ts:255-260 | pushing then trimming is the last 50 of the extended buffer |
| PerformanceMonitoring.SliceLastPush | src/utils/performance-monitoring.ts:255-260 | trimming before a push changes nothing about the last 50 |
| PerformanceMonitoring.ReportAllErrors | src/utils/performance-monitoring.ts:255-260 | after any number of reports the buffer holds exactly the last 50 of the old buffer followed by the new reports |
| PerformanceMonitoring.ReportAllSent | src/utils/performance-monitoring.ts:262-265 | after any number of reports exactly the critical ones, in order, have been sent |
| PerformanceMonitoring.BufferKeepsNewest | src/utils/performance-monitoring.ts:237-265 | from a fresh monitor, the buffer is the newest min(n, 50) reports and the sent ones are exactly the critical reports |
| PerformanceMonitoring.OfType | src/utils/performance-monitoring.ts:341-343 | a report is selected exactly when it is in the buffer with that type |
| PerformanceMonitoring.OfSeverity | src/utils/performance-monitoring.ts:345-347 | a report is selected exactly when it is in the buffer with that severity |
| PerformanceMonitoring.NewestOfItsKind | src/utils/performance-monitoring.ts:341-347 | right after a report, it is the last of its type and the last of its severity (the filters are at lines 255-260) |
| PerformanceMonitoring.SetMetric | src/utils/performance-monitoring.ts:184-187 | the key gets the value, and every other key keeps whatever it had, absent when there were no metrics |
| PerformanceMonitoring.FirstMetricIsAlone | src/utils/performance-monitoring.ts:184-187 | the first metric set starts a record holding only that key |
| PerformanceMonitoring.ScriptErrorReport | src/utils/performance-monitoring.ts:78-91 | a script error is a javascript report with the thrown error's severity, low when nothing was thrown, and the event's file, line, column and message |
| PerformanceMonitoring.RejectionReport | src/utils/performance-monitoring.ts:94-104 | an unhandled rejection is a high promise report, with the reason's message or "Unhandled promise rejection" |
| PerformanceMonitoring.ResourceReport | src/utils/performance-monitoring.ts:107-122 | a resource failure is a medium resource report naming the tag, with the element's src, or its href when src is empty |
| PerformanceMonitoring.CustomErrorReport | src/utils/performance-monitoring.ts:354-361 | a custom error is a javascript report, medium unless told otherwise, with "Unknown error" for an empty message |
| PerformanceMonitoring.PerformanceMonitor.constructor | src/utils/performance-monitoring.ts:36-46 | the monitor starts with no metrics, no errors and nothing sent |
| PerformanceMonitoring.PerformanceMonitor.ReportError | src/utils/performance-monitoring.ts:237-280 | the new state is AfterReport of the old with the filled report |
| PerformanceMonitoring.PerformanceMonitor.OnScriptError | src/utils/performance-monitoring.ts:78-91 | reports the script error's report |
| PerformanceMonitoring.PerformanceMonitor.OnUnhandledRejection | src/utils/performance-monitoring.ts:94-104 | reports the rejection's report |
| PerformanceMonitoring.PerformanceMonitor.OnResourceError | src/utils/performance-monitoring.ts:107-122 | reports the resource failure's report |
| PerformanceMonitoring.PerformanceMonitor.ReportCustomError | src/utils/performance-monitoring.ts:354-361 | reports the custom error's report |
| PerformanceMonitoring.PerformanceMonitor.UpdateMetric | src/utils/performance-monitoring.ts:184-187 | the metrics become SetMetric of the old ones and nothing else changes |
| PerformanceMonitoring.PerformanceMonitor.GetMetrics | src/utils/performance-monitoring.ts:333-335 | the metrics, or none before the first |
| PerformanceMonitoring.PerformanceMonitor.GetErrors | src/utils/performance-monitoring.ts:337-339 | the buffered reports |
| PerformanceMonitoring.PerformanceMonitor.GetErrorsByType | src/utils/performance-monitoring.ts:341-343 | the buffered reports of that type |
| PerformanceMonitoring.PerformanceMonitor.GetErrorsBySeverity | src/utils/performance-monitoring.ts:345-347 | the buffered reports of that severity |
| PerformanceMonitoring.PerformanceMonitor.ClearErrors | src/utils/performance-monitoring.ts:349-351 | the buffer empties and nothing else changes |
| AnalyticsSettings.DefaultConfig | src/config/analytics.ts:11-16 | analytics starts disabled, with no measurement id, privacy mode on and debug off |
| AnalyticsSettings.Merge | src/config/analytics.ts:34-54 | the spread: a field the update carries replaces the old value, a field it omits is kept |
| AnalyticsSettings.MergeLaws | src/config/analytics.ts:34-54 | two spreads in a row are one spread of the combined update; repeating an update changes nothing; the empty update is the identity |
| AnalyticsSettings.Whole | src/config/analytics.ts:58 | the persisted form of a configuration carries every field |
| AnalyticsSettings.LoadFacts | src/config/analytics.ts:29-47 | with nothing usable stored and no runtime settings the defaults load; an unparsable value loads like an absent one; runtime fields override stored ones, which override the defaults |
| AnalyticsSettings.PersistReloads | src/config/analytics.ts:29-58 | what updateConfig persists is what the next load reads back, absent runtime settings |
| AnalyticsSettings.SetIdFacts | src/config/analytics.ts:69-74 | setting an id stores it, enables analytics exactly when the id is non-empty, keeps the other fields, and leaves the configuration consistent |
| AnalyticsSettings.SettersKeepConsistent | src/config/analytics.ts:69-94 | every public setter keeps "enabled only with a measurement id", enable only applying when an id is set |
| AnalyticsSettings.DefaultConsistent | src/config/analytics.ts:11-16 | the defaults satisfy "enabled only with a measurement id" |
| AnalyticsSettings.ConfigManager.constructor | src/config/analytics.ts:18-47 | the configuration is Load of the stored value and the runtime settings; nothing is announced |
| AnalyticsSettings.ConfigManager.GetConfig | src/config/analytics.ts:49-51 | the current configuration |
| AnalyticsSettings.ConfigManager.UpdateConfig | src/config/analytics.ts:53-67 | the configuration becomes the merge; it is persisted whole when storage is writable and always announced |
| AnalyticsSettings.ConfigManager.SetMeasurementId | src/config/analytics.ts:69-74 | updates with the id and enabled as the id's truthiness |
| AnalyticsSettings.ConfigManager.Enable | src/config/analytics.ts:76-82 | with an id set, turns analytics on through updateConfig; without one, changes, persists and announces nothing |
| AnalyticsSettings.ConfigManager.Disable | src/config/analytics.ts:84-86 | turns analytics off through updateConfig |
| AnalyticsSettings.ConfigManager.TogglePrivacyMode | src/config/analytics.ts:88-90 | sets privacy mode through updateConfig |
| AnalyticsSettings.ConfigManager.SetDebugMode | src/config/analytics.ts:92-94 | sets debug mode through updateConfig |
| AnalyticsEvents.ScriptUrl | src/utils/analytics.ts:36 | the gtag script URL is the fixed base followed by the measurement id |
| AnalyticsEvents.AfterInit | src/utils/analytics.ts:30-53 | init does nothing once initialised or outside a browser; otherwise it adds the script and queues the js and config calls, and marks the tracker initialised |
| AnalyticsEvents.Forward | src/utils/analytics.ts:41-67 | a call is appended to the data layer exactly when the tracker is initialised in a browser; nothing else changes |
| AnalyticsEvents.InitIdempotent | src/utils/analytics.ts:30-31 | a second init, with any id, changes nothing |
| AnalyticsEvents.NothingBeforeInit | src/utils/analytics.ts:57-67 | before init, events and page views are dropped |
| AnalyticsEvents.EventsAfterInit | src/utils/analytics.ts:30-74 | after init in a browser, an event reaches the data layer as one event call with its action, category, label and value |
| AnalyticsEvents.FormSubmission | src/utils/analytics.ts:77-83 | a form event in category forms labelled with the form, success or error by the flag, with no value |
| AnalyticsEvents.DashLabel | src/utils/analytics.ts:90 | the label is the button name, " - ", then the location |
| AnalyticsEvents.DownloadLabel | src/utils/analytics.ts:111 | the label is the file name, " (", the type, then ")" |
| AnalyticsEvents.ScrollDepth | src/utils/analytics.ts:97-102 | the scroll event is labelled with the percentage and a percent sign and carries the percentage as its value |
| AnalyticsEvents.ScrollOnlyMultiples | src/utils/analytics.ts:95-104 | a scroll depth is tracked exactly when it is a multiple of 25, as one scroll_depth event |
| AnalyticsEvents.EngagementTime | src/utils/analytics.ts:135-142 | the engagement event carries the time in seconds, rounded half up |
| AnalyticsEvents.EngagementRounding | src/utils/analytics.ts:140 | 1500 ms rounds to 2 s, 1499 ms to 1 s and 499 ms to 0 s |
| AnalyticsEvents.Analytics.constructor | src/utils/analytics.ts:16-20 | a fresh tracker is not initialised and keeps the page's existing data layer |
| AnalyticsEvents.Analytics.Init | src/utils/analytics.ts:30-53 | the new state is AfterInit of the old |
| AnalyticsEvents.Analytics.TrackPageView | src/utils/analytics.ts:56-63 | the new state is AfterPageView of the old |
| AnalyticsEvents.Analytics.TrackEvent | src/utils/analytics.ts:66-74 | the new state is AfterEvent of the old |
| AnalyticsEvents.Analytics.TrackFormSubmission | src/utils/analytics.ts:77-83 | tracks the form submission event |
| AnalyticsEvents.Analytics.TrackButtonClick | src/utils/analytics.ts:86-92 | tracks the button click event |
| AnalyticsEvents.Analytics.TrackScrollDepth | src/utils/analytics.ts:95-104 | the new state is AfterScroll of the old |
| AnalyticsEvents.Analytics.TrackDownload | src/utils/analytics.ts:107-113 | tracks the download event |
| AnalyticsEvents.Analytics.TrackExternalLink | src/utils/analytics.ts:116-122 | tracks the external link event |
| AnalyticsEvents.Analytics.TrackSearch | src/utils/analytics.ts:125-132 | tracks the search event with the result count as value |
| AnalyticsEvents.Analytics.TrackEngagementTime | src/utils/analytics.ts:135-142 | tracks the engagement time event |
| AnalyticsTracking.Crossed | src/hooks/useAnalyticsTracking.ts:21-27 | the milestones reported on one raise are exactly those above the old maximum and at most the new one |
| AnalyticsTracking.CrossedIncreasing | src/hooks/useAnalyticsTracking.ts:21-27 | milestones are reported in increasing order |
| AnalyticsTracking.Reached | src/hooks/useAnalyticsTracking.ts:21-27 | the milestones reported so far are, in increasing order, exactly those between 1 and the maximum scroll |
| AnalyticsTracking.CrossedMilestones | src/hooks/useAnalyticsTracking.ts:21-27 | the crossed milestones are 25, 50, 75 and 100 each taken when it lies in the raised range |
| AnalyticsTracking.ReachedGrows | src/hooks/useAnalyticsTracking.ts:17-28 | raising the maximum from a to b reports exactly the milestones in (a, b] after the earlier ones, so none is reported twice |
| AnalyticsTracking.ScrollTracker.constructor | src/hooks/useAnalyticsTracking.ts:9-10 | scrolling starts at a maximum of 0 with nothing reported |
| AnalyticsTracking.ScrollTracker.HandleScroll | src/hooks/useAnalyticsTracking.ts:12-29 | the maximum becomes the larger of the old one and the new percentage, and the milestones crossed on the way are reported once each |
| AnalyticsTracking.ScrollBelowMaxIsIgnored | src/hooks/useAnalyticsTracking.ts:17 | a scroll that does not exceed the maximum reports nothing |
| AnalyticsTracking.Activity | src/hooks/useAnalyticsTracking.ts:49-54 | activity makes the visitor active and keeps the start; an active visitor is left as is |
| AnalyticsTracking.Final | src/hooks/useAnalyticsTracking.ts:77-89 | the final event is sent exactly when the time to now (if active) or to the last activity (if idle) exceeds five seconds, and carries that time |
| AnalyticsTracking.ContinuousActivityUncounted | src/hooks/useAnalyticsTracking.ts:49-78 | as written, a visitor active at 0, 20000, 40000 and 60000 ms (every gap under the 30-second timeout) who goes idle when the timer fires is credited with no time at unload, since the last activity time still holds the start; with every activity recorded the same visit reports 60 seconds |
| AnalyticsTracking.ContinuousActivityTrace | src/hooks/useAnalyticsTracking.ts:44-78 | the same visit run on the tracker, with the inactivity timer firing only at the time it was last armed for: nothing is sent and the last activity time is the start |
| AnalyticsTracking.ActivityRecorded | src/hooks/useAnalyticsTracking.ts:49-54 | the corrected handler makes the visitor active and records the activity's time |
| AnalyticsTracking.RecordedActivityCounts | src/hooks/useAnalyticsTracking.ts:77-89 | with activity recorded, an idle visitor is credited up to the last activity |
| AnalyticsTracking.EngagementTracker.constructor | src/hooks/useAnalyticsTracking.ts:45-74 | the visitor starts active at the start time with the inactivity timer armed |
| AnalyticsTracking.EngagementTracker.ResetInactivityTimer | src/hooks/useAnalyticsTracking.ts:62-66 | re-arms the thirty-second timer and applies the activity handler |
| AnalyticsTracking.EngagementTracker.HandleInactivity | src/hooks/useAnalyticsTracking.ts:56-66 | fired only at the time the inactivity timer was last armed for, it makes the visitor idle and changes nothing else |
| AnalyticsTracking.EngagementTracker.TrackFinalEngagement | src/hooks/useAnalyticsTracking.ts:77-89 | sends the Final event when there is one and changes nothing else |
| AnalyticsTracking.Click | src/hooks/useAnalyticsTracking.ts:109-111 | a button click labelled with the button and the location, "unknown" by default |
| AnalyticsTracking.FormEventsFacts | src/hooks/useAnalyticsTracking.ts:120-142 | form start, field and error events are all in category forms, labelled with the form (then " - " and the field or error), and have distinct actions |
| AnalyticsTracking.CallKeepsSpacing | src/hooks/useAnalyticsTracking.ts:160-178 | with a clock that does not go back, an immediate run happens exactly when the wait has passed since the last, and runs stay at least the wait apart |
| AnalyticsTracking.FireKeepsSpacing | src/hooks/useAnalyticsTracking.ts:172-176 | the trailing run, when due, keeps runs at least the wait apart |
| AnalyticsTracking.CallsWithinWindowArmOnce | src/hooks/useAnalyticsTracking.ts:171-177 | calls inside the window arm one trailing run for the end of the window, and later calls in the window change nothing |
| AnalyticsTracking.Throttled.constructor | src/hooks/useAnalyticsTracking.ts:157-158 | no run yet, previous at 0 and no timer armed |
| AnalyticsTracking.Throttled.Invoke | src/hooks/useAnalyticsTracking.ts:160-178 | the new state is AfterCall of the old |
| AnalyticsTracking.Throttled.TimerFires | src/hooks/useAnalyticsTracking.ts:172-176 | the new state is AfterFire of the old |
| Sitemap.Day | src/utils/sitemap.ts:3-39 | the date part of an ISO timestamp: a prefix of it with no 'T' |
| Sitemap.StaticEntries | src/utils/sitemap.ts:5-22 | one entry per static page, in order |
| Sitemap.StaticEntriesFacts | src/utils/sitemap.ts:2-22 | each static location is the base URL followed by the page's path, with no image; the home page comes first with priority 1.0 |
| Sitemap.PostImage | src/utils/sitemap.ts:42-45 | a post carries an image exactly when its featured image is truthy, titled with the post's title |
| Sitemap.PostEntries | src/utils/sitemap.ts:37-46 | one entry per post, in order |
| Sitemap.PostEntriesFacts | src/utils/sitemap.ts:37-46 | each post's location is the base URL, "/blog/" and its slug, weekly with priority 0.6, dated by the day of its update time, with an image exactly when it has a featured image |
| Sitemap.StaticXml | src/utils/sitemap.ts:17-22 | each static url element opens with its location and closes the element |
| Sitemap.PostXml | src/utils/sitemap.ts:37-46 | each post url element opens with its location and closes the element |
| Sitemap.Urlset | src/utils/sitemap.ts:14-23 | the document opens with the XML declaration and urlset and closes the urlset |
| Sitemap.GenerateSitemap | src/utils/sitemap.ts:1-26 | the static sitemap is a whole urlset document |
| Sitemap.GenerateBlogSitemap | src/utils/sitemap.ts:29-50 | the blog sitemap is empty exactly when there are no posts, and otherwise a whole urlset document |
| Sitemap.UrlsetEnds | src/utils/sitemap.ts:14-47 | the first item directly follows the head and the last item directly precedes the tail |
| Sitemap.SitemapOrder | src/utils/sitemap.ts:5-23 | the home page comes first in the static sitemap and the blog page last |
| Sitemap.GroupOf | src/utils/sitemap.ts:53-91 | a crawler's group holds only non-agent lines of the file |
| Sitemap.GroupBody | src/utils/sitemap.ts:53-91 | a group is the run of lines up to the next User-agent line |
| Sitemap.GroupBodyOfRules | src/utils/sitemap.ts:53-91 | a section's rules are read back whole as its group |
| Sitemap.LinesStart | src/utils/sitemap.ts:54 | the rendered file starts with a User-agent line |
| Sitemap.GroupOfLines | src/utils/sitemap.ts:53-91 | the group a crawler reads from the rendered lines is the rules of the first section naming it |
| Sitemap.GroupOfSkip | src/utils/sitemap.ts:53-91 | rules ahead of a later section are skipped when looking for another agent |
| Sitemap.RobotsKeepsOutAdmin | src/utils/sitemap.ts:54-67 | the catch-all group lists both sitemaps and disallows /admin/ and /api/ |
| Sitemap.RulesForAt | src/utils/sitemap.ts:53-91 | the rules for an agent are those of the first section naming it |
| Sitemap.RobotsKeepsOutAiBots | src/utils/sitemap.ts:83-90 | GPTBot and Claude-Web are disallowed the whole site |
| StructuredData.Opt | src/components/StructuredData.tsx:80-113 | an absent value is left out of the document |
| StructuredData.OrElse | src/components/StructuredData.tsx:27-65 | a present non-empty value is used, anything else falls back to the default |
| StructuredData.OrgContact | src/components/StructuredData.tsx:11-58 | without data the organization uses the default region, phone and email; with data each missing or empty one falls back to its default |
| StructuredData.ReplaceFirstSpace | src/components/StructuredData.tsx:95 | String.replace with a string pattern replaces only the first space with a hyphen, keeping the length |
| StructuredData.AuthorSlugKeepsSpace | src/components/StructuredData.tsx:95 | an author name with two spaces keeps its second space in the author URL |
| StructuredData.HyphenateAll | src/components/StructuredData.tsx:95 | every space becomes a hyphen and nothing else changes |
| StructuredData.AuthorSlug | src/components/StructuredData.tsx:95 | the corrected slug is the lower-case name with every space a hyphen: it holds no space |
| StructuredData.AuthorSlugAgreesOnTwoWords | src/components/StructuredData.tsx:95 | for a name with at most one space the corrected slug equals the one as written |
| StructuredData.ModifiedDate | src/components/StructuredData.tsx:106 | the modified date when non-empty, otherwise the published date |
| StructuredData.WordCount | src/components/StructuredData.tsx:113 | the word count when non-zero, otherwise 1000 |
| StructuredData.ArticleJson | src/components/StructuredData.tsx:80-115 | as written, the article object declares the Article type and its author URL is the site's author path followed by the first-space-only slug |
| StructuredData.ArticleUrlKeepsSpace | src/components/StructuredData.tsx:95 | as written, an author with two spaces in their name gets an article whose author URL holds a space |
| StructuredData.ArticleJsonCorrected | src/components/StructuredData.tsx:80-115 | corrected: the same article object with every space of the author name hyphenated in the URL |
| StructuredData.ArticleAuthorUrl | src/components/StructuredData.tsx:95 | corrected: the article's author URL never contains a space |
| StructuredData.GenerateStructuredData | src/components/StructuredData.tsx:7-175 | a type outside the six gives the empty object |
| StructuredData.GeneratedDeclaresType | src/components/StructuredData.tsx:7-175 | for each of the six types the generated object reads back the schema.org context and that type's name |
| StructuredData.GeneratedArticle | src/components/StructuredData.tsx:80-95 | the generator's article object carries the as-written author URL |
| StructuredData.Offers | src/components/StructuredData.tsx:134-142 | one offer per service, in order |
| StructuredData.Crumbs | src/components/StructuredData.tsx:150-156 | one list item per breadcrumb, in order |
| StructuredData.Questions | src/components/StructuredData.tsx:162-169 | one question per FAQ entry, in order |
| StructuredData.CrumbReads | src/components/StructuredData.tsx:150-156 | a list item reads back as its breadcrumb's name and URL |
| StructuredData.CrumbPosition | src/components/StructuredData.tsx:152 | the list item at index i has position i + 1 |
| StructuredData.BreadcrumbRoundTrip | src/components/StructuredData.tsx:146-157 | the breadcrumb list reads back item by item as the breadcrumbs given, at positions 1, 2, ... |
| StructuredData.FaqReads | src/components/StructuredData.tsx:162-169 | a question reads back as its FAQ entry |
| StructuredData.FaqRoundTrip | src/components/StructuredData.tsx:158-170 | the FAQ page reads back question by question as the entries given |
| StructuredData.OfferPositions | src/components/StructuredData.tsx:141 | the offer at index i has position i + 1 |
| StructuredData.DefaultsFacts | src/components/StructuredData.tsx:172-173 | an unknown type gives the empty object, and an empty phone falls back to the default (the phone fallback is at line 33) |
| CookieConsent.With | src/components/CookieConsent.tsx:216-219 | the toggled category takes the checkbox's value and every other category keeps its own |
| CookieConsent.NecessaryOnly | src/components/CookieConsent.tsx:20-83 | the necessary-only choice allows exactly the required category |
| CookieConsent.AllOn | src/components/CookieConsent.tsx:67-74 | accept-all allows every category |
| CookieConsent.Fresh | src/components/CookieConsent.tsx:18-25 | a fresh banner is hidden, without details, with necessary-only preferences and storage as found |
| CookieConsent.MountFacts | src/components/CookieConsent.tsx:27-40 | without stored consent the banner is scheduled and shows once the timer fires; with consent it never shows and the saved preferences, if any, are loaded |
| CookieConsent.SaveFacts | src/components/CookieConsent.tsx:42-47 | saving stores the consent flag "true" and the preferences, adopts them and hides the banner and its details |
| CookieConsent.AnalyticsOnlyWithConsent | src/components/CookieConsent.tsx:49-55 | saving starts analytics, with the placeholder id, exactly when the saved preferences allow analytics |
| CookieConsent.AcceptChoices | src/components/CookieConsent.tsx:67-83 | necessary-only never starts analytics and saves only the required category; accept-all starts analytics and saves every category |
| CookieConsent.ReloadAfterSave | src/components/CookieConsent.tsx:27-47 | after a save the next visit reads back the saved preferences and never shows the banner |
| CookieConsent.CloseAsksAgain | src/components/CookieConsent.tsx:154 | closing writes nothing, so a visit without earlier consent shows the banner again (the stored-consent check is at lines 27-32) |
| CookieConsent.ToggleOnlyThatKey | src/components/CookieConsent.tsx:212-219 | a toggle changes only the one category, and never a required one, whose checkbox is disabled |
| CookieConsent.NecessaryAlwaysOn | src/components/CookieConsent.tsx:67-96 | no step of the banner turns the necessary category off (the initial state is at lines 20-25 and the disabled switch at lines 212-219) |
| CookieConsent.FreshNecessaryOn | src/components/CookieConsent.tsx:20-25 | a fresh banner has the necessary category on when any saved preferences do |
| CookieConsent.ConsentBanner.constructor | src/components/CookieConsent.tsx:17-25 | the state is Fresh of the storage found |
| CookieConsent.ConsentBanner.Mount | src/components/CookieConsent.tsx:27-40 | the new state is AfterMount of the old |
| CookieConsent.ConsentBanner.BannerTimerFires | src/components/CookieConsent.tsx:31 | the new state is AfterTimer of the old |
| CookieConsent.ConsentBanner.SaveConsent | src/components/CookieConsent.tsx:42-65 | the new state is AfterSave of the old with the preferences |
| CookieConsent.ConsentBanner.AcceptAll | src/components/CookieConsent.tsx:67-74 | saves every category |
| CookieConsent.ConsentBanner.AcceptNecessary | src/components/CookieConsent.tsx:76-83 | saves the necessary category only |
| CookieConsent.ConsentBanner.SaveCustom | src/components/CookieConsent.tsx:85-87 | saves the preferences as they stand |
| CookieConsent.ConsentBanner.Toggle | src/components/CookieConsent.tsx:212-219 | the new state is AfterToggle of the old |
| CookieConsent.ConsentBanner.Close | src/components/CookieConsent.tsx:151-154 | the new state is AfterClose of the old |
| CookieConsent.ConsentBanner.SetShowDetails | src/components/CookieConsent.tsx:183-256 | the new state is AfterDetails of the old |
| CookieConsent.ConsentBanner.IsRendered | src/components/CookieConsent.tsx:120 | the banner renders exactly when it is shown |
| SecurityStatus.ClassifyRules | src/components/SecurityStatusIndicator.tsx:20-34 | critical exactly when the hour holds a critical event or there is a critical application error; otherwise warning exactly when it holds more than two high events or more than ten events; otherwise secure |
| SecurityStatus.QuietIsSecure | src/components/SecurityStatusIndicator.tsx:28-34 | an hour of at most two events, none critical, with no critical error, is secure |
| SecurityStatus.MoreEventsNeverCalmer | src/components/SecurityStatusIndicator.tsx:20-34 | one more event in the hour never lowers the status |
| SecurityStatus.BadgeDistinguishes | src/components/SecurityStatusIndicator.tsx:54-74 | different statuses get different badge variants and different texts |
| SecurityStatus.DetailedStatus | src/components/SecurityStatusIndicator.tsx:76-89 | the panel counts the last hour's events, the critical ones and the high ones among them (so critical plus high never exceeds the total), all errors, at most the last ten threat alerts, and the quarantined sessions |
| SecurityStatus.CriticalAndHighFit | src/components/SecurityStatusIndicator.tsx:83-84 | critical and high events are disjoint parts of the hour |
| SecurityStatus.UpdateForgetsPast | src/components/SecurityStatusIndicator.tsx:19-31 | an update depends only on what it reads, keeps the visibility, and records the hour's event count as the panel does |
| SecurityStatus.StatusIndicator.constructor | src/components/SecurityStatusIndicator.tsx:13-16 | the indicator starts secure, visible, with no events, stamped now |
| SecurityStatus.StatusIndicator.UpdateStatus | src/components/SecurityStatusIndicator.tsx:19-35 | the new state is AfterUpdate of the old: the classification of the last hour and the errors, the hour's event count, and now |
| SecurityStatus.StatusIndicator.SetVisible | src/components/SecurityStatusIndicator.tsx:91-126 | only the visibility changes |
| SecurityDashboard.VariantOfSeverity | src/components/SecurityDashboard.tsx:45-53 | critical and high events get the destructive badge and only they do; medium gets the default badge, low the secondary one, and no severity the monitors produce falls through to outline |
| SecurityDashboard.UnknownSeverityIsOutline | src/components/SecurityDashboard.tsx:45-53 | a severity name that is none of the four gets the outline badge |
| SecurityDashboard.RecentEvents | src/components/SecurityDashboard.tsx:73-76 | an event is recent exactly when it is one of the events and its timestamp is strictly after now minus the given number of hours |
| SecurityDashboard.EventStatsOf | src/components/SecurityDashboard.tsx:78-88 | the total is the number of events of the last 24 hours, each severity field counts the events of that severity among them, and the four counts add up to the total |
| SecurityDashboard.SeverityPartition | src/components/SecurityDashboard.tsx:78-88 | the critical, high, medium and low events of a list together number the whole list |
| SecurityDashboard.AlertIffHighPriority | src/components/SecurityDashboard.tsx:131-187 | the security alert shows exactly when the high-priority figure is positive, that is when the last 24 hours hold a critical or high event |
| SecurityDashboard.RateLimitStatsOf | src/components/SecurityDashboard.tsx:90-97 | the figures are the limiter's statistics for the contact form, the logins and the API, and the number of blocked identifiers |
| SecurityDashboard.ViolationsLeaveOutApi | src/components/SecurityDashboard.tsx:143 | the violations figure does not change with the API statistics and moves one for one with the contact-form violations |
| SecurityDashboard.FirstShown | src/components/SecurityDashboard.tsx:207 | as written, each tab shows a prefix of its list of at most twenty entries (the same slice is at lines 257 and 380) |
| SecurityDashboard.NewestNotShown | src/components/SecurityDashboard.tsx:207 | as written, with more than twenty distinct entries the newest one is not shown (the same slice is at lines 257 and 380) |
| SecurityDashboard.LatestShown | src/components/SecurityDashboard.tsx:207 | corrected: each tab shows at most twenty entries, every one of the twenty newest is among them, and nothing else (the same slice is at lines 257 and 380) |
| SecurityDashboard.ShortListsAgree | src/components/SecurityDashboard.tsx:207 | up to twenty entries the written and the corrected lists are both the whole list (the same slice is at lines 257 and 380) |
| SecurityDashboard.Dashboard.constructor | src/components/SecurityDashboard.tsx:27-30 | the dashboard starts with no events, errors or violations and the refresh counter at zero |
| SecurityDashboard.Dashboard.LoadData | src/components/SecurityDashboard.tsx:32-43 | loading copies the three monitors' lists and leaves the refresh counter alone |
| SecurityDashboard.Dashboard.Refresh | src/components/SecurityDashboard.tsx:112 | the refresh button bumps the counter by one and changes nothing else |
| SecurityDashboard.Dashboard.Unblock | src/components/SecurityDashboard.tsx:344-356 | unblocking lifts the identifier's block as the limiter's unblock does, so it is no longer blocked, and bumps the refresh counter |
| SecurityDashboard.Dashboard.GetEventStats | src/components/SecurityDashboard.tsx:78-88 | the statistics are those of the loaded events over the last 24 hours |
| SecurityDashboard.Dashboard.CriticalErrorCount | src/components/SecurityDashboard.tsx:159 | the figure is the number of critical errors, never more than the errors |
| SecurityDashboard.Dashboard.ShownLists | src/components/SecurityDashboard.tsx:207 | as written, the events, errors and CSP tabs each show the first twenty entries of their lists, which are the oldest (the same slice is at lines 257 and 380) |
| SecurityDashboard.Dashboard.LatestLists | src/components/SecurityDashboard.tsx:207 | corrected: the three tabs show the twenty newest entries of their lists (the same slice is at lines 257 and 380) |
| AdminPage.TotalViewsAppend | src/pages/Admin.tsx:91 | the summed view count of two lists of posts is the sum of their totals |
| AdminPage.TotalViewsBounds | src/pages/Admin.tsx:91 | with no negative view count the total is never negative, and posts without a view count add nothing |
| AdminPage.StatsAsWritten | src/pages/Admin.tsx:90-97 | as written, the stats count the loaded posts, the published ones among them and their summed views; an administrator gets the number of users the page held before the load, anyone else none |
| AdminPage.TotalUsersAlwaysZeroOnMount | src/pages/Admin.tsx:53-95 | as written, an administrator's first load shows zero users however many profiles the query returned; the corrected stats show as many as it returned |
| AdminPage.StatsOf | src/pages/Admin.tsx:90-97 | corrected: the stats count the loaded posts, the published ones among them and their summed views, and the users just loaded for an administrator and none otherwise |
| AdminPage.PublishedAndDrafts | src/pages/Admin.tsx:94 | published and unpublished posts together make up all posts |
| AdminPage.Transform | src/pages/Admin.tsx:79-85 | each profile becomes one user with its id, creation date and display name, an empty email and the default user role; no profile data gives no users |
| AdminPage.SetPublished | src/pages/Admin.tsx:121-127 | the posts with the id get the new publication flag and every other post is kept, in place |
| AdminPage.Without | src/pages/Admin.tsx:155 | a post stays exactly when it was there and has another id |
| AdminPage.ToggleBackRestores | src/pages/Admin.tsx:111-127 | toggling a post whose flag is the opposite and toggling it back gives the list it started from |
| AdminPage.DeleteAfterToggle | src/pages/Admin.tsx:121-155 | deleting a post after toggling it leaves what deleting it alone leaves |
| AdminPage.DeleteKeepsOthers | src/pages/Admin.tsx:155 | deleting works piece by piece along the list and keeps a part without that id unchanged |
| AdminPage.PublishedAfterSet | src/pages/Admin.tsx:121-127 | after publishing, the published count is that of the other posts plus every post with the id; after unpublishing, that of the other posts |
| AdminPage.FailuresKeepList | src/pages/Admin.tsx:111-167 | a failed update or delete, or a declined confirmation, leaves the list as it was; a declined confirmation changes nothing; neither action recomputes the stats |
| AdminPage.DeleteRemovesId | src/pages/Admin.tsx:142-160 | after a successful delete no post has that id, and one toast is added |
| AdminPage.AfterFetch | src/pages/Admin.tsx:57-109 | as written, loading always ends; a failed query keeps the stats and users and adds an error toast; otherwise the posts are the loaded ones (none for missing data), an administrator's users are the loaded profiles, and the stats are the as-written stats over the users held before the load |
| AdminPage.FetchOnMountCountsNoUsers | src/pages/Admin.tsx:53-95 | as written, the mount load of an administrator's page loads every profile as a user and still shows zero users |
| AdminPage.AfterFetchCorrected | src/pages/Admin.tsx:57-109 | corrected: the same posts and users as the as-written load, with the stats counting the users just loaded |
| AdminPage.FetchFacts | src/pages/Admin.tsx:57-109 | corrected: a load whose queries answer shows the loaded posts and their stats, counts the loaded users for an administrator and none otherwise; a failed posts query keeps the old list, and missing post data gives an empty one |
| AdminPage.AdminPanel.constructor | src/pages/Admin.tsx:43-51 | the page starts empty, loading, with zero stats and no toasts |
| AdminPage.AdminPanel.FetchData | src/pages/Admin.tsx:57-109 | the new page is the as-written AfterFetch of the old one: a failed query stops the sequence with an error toast, loading always ends, and totalUsers counts the users held before the load |
| AdminPage.AdminPanel.TogglePostPublish | src/pages/Admin.tsx:111-140 | on success the post's flag flips with a success toast; on failure only an error toast is added |
| AdminPage.AdminPanel.DeletePost | src/pages/Admin.tsx:142-167 | declining changes nothing; on success the post is removed with a success toast; on failure only an error toast is added |

## Left out

- Time, randomness and identity: `Date.now()`, `Math.random` ids, session ids and `crypto.getRandomValues` are parameters. generateCSRFToken and setCSRFToken are not modelled; the token check is.
- Timers: every `setTimeout`/`setInterval` is an explicit operation that the environment calls. How several pending timers interleave is not modelled.
- Browser I/O: local and session storage are fields or parameters, and a stored value that fails to parse is a parameter outcome. Meta-tag injection (setMetaHeaders, and the tag applyCSP writes, beyond its text), console logging, window event dispatch and React rendering are not modelled.
- Regular expressions: simple patterns are written out as character checks; the threat signatures' regexes go through an abstract matcher `rx`.
- Text encoding: `toLowerCase`, and the case-insensitive regex flags, fold ASCII letters only. String lengths count Dafny characters, where JavaScript counts UTF-16 code units.
- Numbers: scroll positions and milliseconds are integers, so the floating-point percentages and non-integer times of the browser are not modelled.
- SecurityMonitoring: the browser listeners are not modelled (fetch and console patching, devtools polling, and the mouse-linearity heuristic with its floating-point variance); the report helpers they call are. The device description and user agent that logEvent attaches to each event are not modelled.
- ThreatIntelligence: evaluateCondition runs rule text through `new Function`. Rules are modelled as three condition shapes, enough to prove that no default rule fires. addPolicy, removePolicy, getPolicies and executeSecurityAction's `block` and `rate_limit` actions are not modelled. triggerSecurityResponse's critical `suspicious_activity` event (reason `automated_threat_response`) logged to window.securityMonitor is not modelled: only the alert history it appends to is.
- SecurityHeaders: sanitizeURL depends on the URL parser and is not modelled.
- Validation: the schema library's generic `.email()` and URL/phone checks are boolean parameters. validateFile's `maxFiles` option is accepted by the source but never used, so it is not modelled.
- ContactForm: the Supabase client and the mail service are abstract results. The emails are modelled by sender, recipient, subject and the labelled values their HTML interpolates, not by the full HTML or the formatted dates.
- ServiceWorker: Cache Storage and `fetch` are abstract, and the un-awaited `cache.put` lands within the same step. The push, sync and notification handlers are pure I/O and are not modelled, and neither are skipWaiting and clients.claim.
- PerformanceMonitoring: not modelled are the PerformanceObserver metrics, collectMetrics, sendMetrics, startTimer, markFeatureUsage and the user context; determineSeverity sees a thrown value as its constructor name and its message, so a thrown value without a message, on which the source itself throws, is not modelled. The `sendError` network call is recorded, not performed.
- AnalyticsEvents and AnalyticsTracking: the gtag script load is recorded as a script URL. The React hook wrappers (`useAnalytics`, the `useEffect` plumbing) are not modelled.
- StructuredData: `JSON.stringify` is not modelled; the JSON value is the output.
- Sitemap: `toISOString` and the date parsing are not modelled; dates arrive as ISO-8601 text.
- CookieConsent: the dynamic `import` of the analytics module inside saveConsent is modelled as an immediate request to initialise.
- AdminPage: the page's loading screen between the start and the end of fetchData is not a separate state; FetchData describes the state once the queries have answered.
- SecurityDashboard and SecurityStatus: the severity icons and timestamp formatting are presentation and are not modelled.
- Validation: a stored attempt record that parses to an object lacking firstAttempt or attempts is not a value of its own. An object with neither field is given as no entry (None), since the source's NaN comparison then resets the window just as it does for a missing entry; an object with only one of the two fields, whose NaN arithmetic the source stores back, is not modelled.
- RateLimiting: a configuration's custom `keyGenerator` is not modelled; every key is `type:identifier`, the source's default.
- RateLimiting.Notify: a limit type's callback is absent or the default one, which calls handleLimitReached for that type; a custom `onLimitReached` given to addCustomLimit could run any code, including calls back into the limiter, and is not modelled, so the contract requires only that the callback change neither the windows nor the configurations.
- RateLimiting: the reports to window.securityMonitor (reportRateLimitExceeded at lines 129-131 and reportSuspiciousActivity at lines 205-210 of advanced-rate-limiting.ts) are recorded as the limiter's notices and not passed on to a SecurityMonitoring.SecurityMonitor; that class's ReportRateLimitExceeded and ReportSuspiciousActivity model the events it then logs. The guard on the monitor's presence is taken to pass, since src/main.tsx:13 always installs it.
- ContactForm.InsertKeepsHourlyCap: holds for requests handled one after another. Two concurrent requests can both pass the hourly count query before either inserts, so the source can store a fourth message in the hour; concurrency is not modelled.
- SecurityDashboard.RateLimitStatsOf: a ghost function over the limiter's state, since the class's getStats is a method; Dashboard.Unblock calls the limiter's method directly.

## Findings

| source | as written | input that shows it | evidently intended | confidence | as-written member | corrected member |
|---|---|---|---|---|---|---|
| src/utils/security-headers.ts:328 | sanitizeHTML removes each `javascript:` occurrence in one pass, so removing one can join the text around it into a new one | `"javajavascript:script:"` comes out as `"javascript:"` | no `javascript:` in the output, case-insensitively | high; not executed | SecurityHeaders.SinglePassLeavesJavascript | SecurityHeaders.SanitizeFully |
| src/hooks/useAnalyticsTracking.ts:49-78 | handleActivity records lastActiveTime only when the visitor was inactive, so a visitor active from the start keeps lastActiveTime at the start | activity at 0, 20000, 40000 and 60000 ms, the inactivity timer at 90000 ms, unload at 200000 ms: no engagement event | engagement ends at the last activity and is reported when over 5 s | medium; not executed | AnalyticsTracking.ContinuousActivityUncounted | AnalyticsTracking.ActivityRecorded |
| src/components/StructuredData.tsx:95 | `replace(' ', '-')` replaces only the first space of the author name | `"Mary Ann Lee"` gives the slug `"mary-ann lee"` | every space becomes `-` | high; not executed | StructuredData.ArticleUrlKeepsSpace | StructuredData.ArticleJsonCorrected |
| src/components/SecurityDashboard.tsx:207 | `slice(0, 20)` of lists that grow at their end shows the oldest twenty entries (the same slice is at lines 257 and 380) | 21 distinct events: the newest is not shown | the latest twenty entries, as the tab's description promises | high; not executed | SecurityDashboard.NewestNotShown | SecurityDashboard.LatestShown |
| src/pages/Admin.tsx:95 | totalUsers reads the `users` state captured before the load, which is empty on mount | an administrator whose profiles query returns one or more rows sees 0 users | the number of users just loaded | high; not executed | AdminPage.FetchOnMountCountsNoUsers | AdminPage.AfterFetchCorrected |
