// The in-memory rate limiter of src/utils/advanced-rate-limiting.ts.
//
// A limiter keeps, per "<limit type>:<identifier>" key, a window entry
// (requests, window start, last request, suspicious-pattern violations); per
// limit type a configuration; a set of blocked identifiers; and, per
// "<limit type>:<identifier>", a count of limit hits; and the reports it has
// made to the security monitor, which the application always installs
// (src/main.tsx:13), so the source's guard on its presence always passes.
// Time is a parameter.
// The timers the source starts with setTimeout/setInterval are the methods
// ExpireSuspicionBlock, ExpireLimitBlock and CleanupExpiredEntries, which the
// environment calls when they fire.

module RateLimiting {
  import opened Common

  const MinuteMs: nat := 60 * 1000
  const HourMs: nat := 60 * MinuteMs
  const DayMs: nat := 24 * HourMs
  /** Requests closer together than this are bot-like. */
  const MinSpacingMs: int := 100
  /** Violations (and limit hits before the current one) that lead to a block. */
  const BlockThreshold: nat := 3

  /** The limit-reached callback: none, or the default one, which calls
    * handleLimitReached for the limit type it was registered under. */
  datatype Callback = NoCallback | Escalate(limitType: string)

  datatype Config = Config(maxRequests: nat, windowMs: nat, onLimitReached: Callback)

  datatype Entry = Entry(requests: nat, windowStart: int, lastRequest: int, violations: nat)

  /** A RateLimitResult: allowed, blocked (only retryAfter set), or over the limit. */
  datatype Verdict =
    | Allow(remainingRequests: int, resetTime: int)
    | Block(retryAfter: nat)
    | Exceeded(resetTime: int, retryAfter: nat)

  /** check() either answers or throws for an unknown limit type. */
  datatype Outcome = Answer(verdict: Verdict) | MissingConfig(limitType: string)

  /** A report to the security monitor: reportRateLimitExceeded(endpoint, limit), or
    * reportSuspiciousActivity('rate_limit_suspicious_pattern', {limitType, identifier, requests}). */
  datatype Notice =
    | LimitExceeded(endpoint: string, limit: nat)
    | SuspiciousPattern(limitType: string, identifier: string, requests: nat)

  datatype Limiter = Limiter(
    limits: map<string, Entry>,
    configs: map<string, Config>,
    blocked: seq<string>,
    suspicious: map<string, nat>,
    notices: seq<Notice>)

  datatype Step = Step(state: Limiter, outcome: Outcome)

  datatype Stats = Stats(totalRequests: nat, activeWindows: nat, violations: nat, blockedIdentifiers: nat)

  function Key(limitType: string, identifier: string): string
  {
    limitType + ":" + identifier
  }

  /** The configurations registered at construction. */
  function DefaultConfigs(): map<string, Config>
  {
    map[
      "contact_form" := Config(3, 15 * MinuteMs, Escalate("contact_form")),
      "login_attempts" := Config(5, 15 * MinuteMs, Escalate("login_attempts")),
      "api_requests" := Config(100, MinuteMs, Escalate("api_requests")),
      "search_requests" := Config(20, MinuteMs, Escalate("search_requests")),
      "file_uploads" := Config(10, HourMs, Escalate("file_uploads"))]
  }

  function Initial(): Limiter
  {
    Limiter(map[], DefaultConfigs(), [], map[], [])
  }

  /** `key.split(':')[0]`: the text before the first colon. */
  function FirstSegment(key: string): (r: string)
    ensures StartsWith(key, r)
    ensures ':' !in r
    ensures |r| < |key| ==> key[|r|] == ':'
  {
    if key == [] || key[0] == ':' then [] else [key[0]] + FirstSegment(key[1..])
  }

  lemma {:induction false} FirstSegmentOfKey(limitType: string, identifier: string)
    requires ':' !in limitType
    ensures FirstSegment(Key(limitType, identifier)) == limitType
  {
    var k := Key(limitType, identifier);
    if limitType != [] {
      assert k[0] == limitType[0];
      assert k[1..] == Key(limitType[1..], identifier);
      FirstSegmentOfKey(limitType[1..], identifier);
    }
  }

  // ---------------------------------------------------------------------
  // The operations, on values

  /** detectSuspiciousPatterns: reads the STORED entry for the key.  The
    * source's `requests / timeInWindow * 1000 > 10` is the exact comparison
    * `100 * requests > timeInWindow` for a non-negative window time (a zero
    * window time gives Infinity) and false for a negative one. */
  predicate Suspicious(s: Limiter, limitType: string, identifier: string, now: int)
  {
    var key := Key(limitType, identifier);
    if key !in s.limits then false
    else
      var e := s.limits[key];
      if now - e.lastRequest < MinSpacingMs then true
      else if limitType in s.configs && 5 * e.requests > 4 * s.configs[limitType].maxRequests then
        var timeInWindow := now - e.windowStart;
        timeInWindow >= 0 && 100 * e.requests > timeInWindow
      else false
  }

  /** The limit handleLimitReached reports: the type's maxRequests, 0 for an unknown type. */
  function ReportedLimit(configs: map<string, Config>, limitType: string): nat
  {
    if limitType in configs then configs[limitType].maxRequests else 0
  }

  /** handleLimitReached: count the hit, block on the fourth, and report the limit. */
  function AfterLimitReached(s: Limiter, limitType: string, identifier: string): (r: Limiter)
    ensures r.limits == s.limits && r.configs == s.configs
    ensures NoDup(s.blocked) ==> NoDup(r.blocked)
    ensures r.notices == s.notices + [LimitExceeded(limitType, ReportedLimit(s.configs, limitType))]
  {
    var vk := Key(limitType, identifier);
    var violations := if vk in s.suspicious then s.suspicious[vk] else 0;
    var s1 := s.(suspicious := s.suspicious[vk := violations + 1],
                 notices := s.notices + [LimitExceeded(limitType, ReportedLimit(s.configs, limitType))]);
    if violations >= BlockThreshold then s1.(blocked := SetAdd(s1.blocked, identifier)) else s1
  }

  function Notify(s: Limiter, callback: Callback, identifier: string): (r: Limiter)
    ensures r.limits == s.limits && r.configs == s.configs
    ensures NoDup(s.blocked) ==> NoDup(r.blocked)
  {
    match callback
    case NoCallback => s
    case Escalate(t) => AfterLimitReached(s, t, identifier)
  }

  /** check(limitType, identifier) at time `now`. */
  function AfterCheck(s: Limiter, limitType: string, identifier: string, now: int): (r: Step)
    ensures r.state.configs == s.configs
    ensures NoDup(s.blocked) ==> NoDup(r.state.blocked)
    ensures identifier in s.blocked ==> r == Step(s, Answer(Block(DayMs)))
    ensures identifier !in s.blocked && limitType !in s.configs ==> r == Step(s, MissingConfig(limitType))
    ensures r.outcome.Answer? && r.outcome.verdict.Allow? ==> r.outcome.verdict.remainingRequests >= 0
  {
    if identifier in s.blocked then Step(s, Answer(Block(DayMs)))
    else if limitType !in s.configs then Step(s, MissingConfig(limitType))
    else
      var config := s.configs[limitType];
      var key := Key(limitType, identifier);
      var reused := key in s.limits && now - s.limits[key].windowStart <= config.windowMs;
      var e0 := if reused then s.limits[key] else Entry(0, now, 0, 0);
      var flagged := Suspicious(s, limitType, identifier, now);
      var e1 := if flagged then e0.(violations := e0.violations + 1) else e0;
      var s0 := if flagged then s.(notices := s.notices + [SuspiciousPattern(limitType, identifier, e0.requests)]) else s;
      // a reused entry is the stored object itself, so the violation is recorded at once
      var s1 := if flagged && reused then s0.(limits := s0.limits[key := e1]) else s0;
      if flagged && e1.violations >= BlockThreshold then
        Step(s1.(blocked := SetAdd(s1.blocked, identifier)), Answer(Block(HourMs)))
      else if e1.requests >= config.maxRequests then
        var resetTime := e1.windowStart + config.windowMs;
        Step(Notify(s1, config.onLimitReached, identifier), Answer(Exceeded(resetTime, Max(0, resetTime - now))))
      else
        var e2 := e1.(requests := e1.requests + 1, lastRequest := now);
        Step(s1.(limits := s1.limits[key := e2]),
             Answer(Allow(config.maxRequests - e2.requests, e2.windowStart + config.windowMs)))
  }

  /** The limits map without the keys that start with `prefix`. */
  function WithoutPrefix(m: map<string, Entry>, prefix: string): (r: map<string, Entry>)
    ensures forall k :: k in r <==> k in m && !StartsWith(k, prefix)
    ensures forall k :: k in r ==> r[k] == m[k]
  {
    map k | k in m && !StartsWith(k, prefix) :: m[k]
  }

  /** reset(limitType, identifier?): an absent or empty identifier resets the whole type. */
  function AfterReset(s: Limiter, limitType: string, identifier: Option<string>): Limiter
  {
    if identifier.Some? && identifier.value != "" then s.(limits := s.limits - {Key(limitType, identifier.value)})
    else s.(limits := WithoutPrefix(s.limits, limitType + ":"))
  }

  /** removeLimit(limitType). */
  function AfterRemoveLimit(s: Limiter, limitType: string): Limiter
  {
    s.(configs := s.configs - {limitType}, limits := WithoutPrefix(s.limits, limitType + ":"))
  }

  /** An entry the five-minute sweep deletes. */
  predicate Expired(configs: map<string, Config>, key: string, e: Entry, now: int)
  {
    var limitType := FirstSegment(key);
    limitType in configs && now - e.windowStart > configs[limitType].windowMs * 2
  }

  function AfterCleanup(s: Limiter, now: int): Limiter
  {
    s.(limits := map k | k in s.limits && !Expired(s.configs, k, s.limits[k], now) :: s.limits[k])
  }

  /** unblockIdentifier: unblock and forget every hit count whose key ends in ":<identifier>". */
  function AfterUnblock(s: Limiter, identifier: string): Limiter
  {
    s.(blocked := SetDelete(s.blocked, identifier),
       suspicious := map k | k in s.suspicious && !EndsWith(k, ":" + identifier) :: s.suspicious[k])
  }

  /** The one-hour timer of a suspicion block. */
  function AfterSuspicionBlockExpires(s: Limiter, identifier: string): Limiter
  {
    s.(blocked := SetDelete(s.blocked, identifier))
  }

  /** The 24-hour timer of a limit-hit block. */
  function AfterLimitBlockExpires(s: Limiter, limitType: string, identifier: string): Limiter
  {
    s.(blocked := SetDelete(s.blocked, identifier), suspicious := s.suspicious - {Key(limitType, identifier)})
  }

  // ---------------------------------------------------------------------
  // Statistics

  function PrefixKeys<V>(m: map<string, V>, prefix: string): set<string>
  {
    set k | k in m && StartsWith(k, prefix)
  }

  ghost function SumEntries(m: map<string, Entry>, keys: set<string>, field: Entry -> nat): nat
    requires keys <= m.Keys
    decreases keys
  {
    if keys == {} then 0
    else
      var k :| k in keys;
      field(m[k]) + SumEntries(m, keys - {k}, field)
  }

  /** The sum does not depend on the order the keys are taken in. */
  lemma {:induction false} SumEntriesRemove(m: map<string, Entry>, keys: set<string>, field: Entry -> nat, k: string)
    requires keys <= m.Keys && k in keys
    ensures SumEntries(m, keys, field) == field(m[k]) + SumEntries(m, keys - {k}, field)
    decreases keys
  {
    var j :| j in keys && SumEntries(m, keys, field) == field(m[j]) + SumEntries(m, keys - {j}, field);
    if j != k {
      SumEntriesRemove(m, keys - {j}, field, k);
      SumEntriesRemove(m, keys - {k}, field, j);
      assert keys - {j} - {k} == keys - {k} - {j};
    }
  }

  lemma SumEntriesAdd(m: map<string, Entry>, keys: set<string>, field: Entry -> nat, k: string)
    requires keys <= m.Keys && k in m && k !in keys
    ensures SumEntries(m, keys + {k}, field) == SumEntries(m, keys, field) + field(m[k])
  {
    SumEntriesRemove(m, keys + {k}, field, k);
    assert keys + {k} - {k} == keys;
  }

  function Requests(e: Entry): nat { e.requests }
  function Violations(e: Entry): nat { e.violations }

  /** getStats(limitType). */
  ghost function StatsOf(s: Limiter, limitType: string): Stats
  {
    var keys := PrefixKeys(s.limits, limitType + ":");
    Stats(SumEntries(s.limits, keys, Requests), |keys|, SumEntries(s.limits, keys, Violations),
          |set k | k in s.suspicious && StartsWith(k, limitType + ":") && s.suspicious[k] >= BlockThreshold|)
  }

  // ---------------------------------------------------------------------
  // Properties

  /** A window that has not started, or has passed, restarts at `now` and admits the call. */
  lemma FreshWindowAllows(s: Limiter, limitType: string, identifier: string, now: int)
    requires identifier !in s.blocked && limitType in s.configs
    requires s.configs[limitType].maxRequests >= 1
    requires var key := Key(limitType, identifier);
      key !in s.limits || now - s.limits[key].windowStart > s.configs[limitType].windowMs
    ensures var r := AfterCheck(s, limitType, identifier, now);
      var config := s.configs[limitType];
      && r.outcome == Answer(Allow(config.maxRequests - 1, now + config.windowMs))
      && Key(limitType, identifier) in r.state.limits
      && r.state.limits[Key(limitType, identifier)].requests == 1
      && r.state.limits[Key(limitType, identifier)].windowStart == now
      && r.state.blocked == s.blocked && r.state.configs == s.configs
  {
  }

  /** A third suspicious-pattern violation on a live window blocks for an hour. */
  lemma ThirdViolationBlocks(s: Limiter, limitType: string, identifier: string, now: int)
    requires identifier !in s.blocked && limitType in s.configs
    requires var key := Key(limitType, identifier);
      && key in s.limits
      && now - s.limits[key].windowStart <= s.configs[limitType].windowMs
      && s.limits[key].violations >= BlockThreshold - 1
    requires Suspicious(s, limitType, identifier, now)
    ensures var r := AfterCheck(s, limitType, identifier, now);
      r.outcome == Answer(Block(HourMs)) && identifier in r.state.blocked
      && r.state.limits[Key(limitType, identifier)].violations == s.limits[Key(limitType, identifier)].violations + 1
  {
  }

  /** The stored entry `e` of a configured type does not flag a call at `now`. */
  predicate Unflagged(e: Entry, config: Config, now: int)
  {
    && now - e.lastRequest >= MinSpacingMs
    && !(5 * e.requests > 4 * config.maxRequests && 0 <= now - e.windowStart < 100 * e.requests)
  }

  /** detectSuspiciousPatterns flags a call exactly when the key has a stored entry and
    * either its last request was under 100 ms ago, or it holds more than 80% of the
    * type's maximum and has come at over 10 requests a second since the window opened. */
  lemma SuspiciousTriggers(s: Limiter, limitType: string, identifier: string, now: int)
    ensures var key := Key(limitType, identifier);
      Suspicious(s, limitType, identifier, now) <==>
        && key in s.limits
        && var e := s.limits[key];
           || now - e.lastRequest < MinSpacingMs
           || (&& limitType in s.configs
               && 5 * e.requests > 4 * s.configs[limitType].maxRequests
               && 0 <= now - e.windowStart < 100 * e.requests)
    ensures var key := Key(limitType, identifier);
      key in s.limits && limitType in s.configs ==>
        (Suspicious(s, limitType, identifier, now) <==> !Unflagged(s.limits[key], s.configs[limitType], now))
  {
  }

  /** A call on a key never seen opens a window holding just this call, and reports nothing. */
  lemma FirstCallStored(s: Limiter, limitType: string, identifier: string, t: int)
    requires identifier !in s.blocked && limitType in s.configs && s.configs[limitType].maxRequests >= 1
    requires Key(limitType, identifier) !in s.limits
    ensures var config := s.configs[limitType];
      var r := AfterCheck(s, limitType, identifier, t);
      && r.outcome == Answer(Allow(config.maxRequests - 1, t + config.windowMs))
      && r.state == s.(limits := s.limits[Key(limitType, identifier) := Entry(1, t, t, 0)])
  {
  }

  /** A call under 100 ms after the last one, inside the window, is flagged and reported;
    * below three violations and below the maximum it is still admitted and counted. */
  lemma FlaggedCallAdmitted(s: Limiter, limitType: string, identifier: string, t: int, e: Entry)
    requires identifier !in s.blocked && limitType in s.configs
    requires Key(limitType, identifier) in s.limits && s.limits[Key(limitType, identifier)] == e
    requires t - e.windowStart <= s.configs[limitType].windowMs && t - e.lastRequest < MinSpacingMs
    requires e.violations + 1 < BlockThreshold && e.requests < s.configs[limitType].maxRequests
    ensures var config := s.configs[limitType];
      var r := AfterCheck(s, limitType, identifier, t);
      && r.outcome == Answer(Allow(config.maxRequests - (e.requests + 1), e.windowStart + config.windowMs))
      && r.state == s.(limits := s.limits[Key(limitType, identifier) :=
                         Entry(e.requests + 1, e.windowStart, t, e.violations + 1)],
                       notices := s.notices + [SuspiciousPattern(limitType, identifier, e.requests)])
  {
  }

  /** Such a call that brings the violations to three blocks the identifier for an hour. */
  lemma FlaggedCallBlocks(s: Limiter, limitType: string, identifier: string, t: int, e: Entry)
    requires identifier !in s.blocked && limitType in s.configs
    requires Key(limitType, identifier) in s.limits && s.limits[Key(limitType, identifier)] == e
    requires t - e.windowStart <= s.configs[limitType].windowMs && t - e.lastRequest < MinSpacingMs
    requires e.violations + 1 >= BlockThreshold
    ensures var r := AfterCheck(s, limitType, identifier, t);
      && r.outcome == Answer(Block(HourMs))
      && identifier in r.state.blocked
      && r.state.notices == s.notices + [SuspiciousPattern(limitType, identifier, e.requests)]
  {
  }

  /** Four calls 50 ms apart on a key never seen: the first opens the window, the next two
    * are flagged and reported but still admitted, and the fourth, flagged a third time,
    * blocks the identifier for an hour. */
  lemma RapidCallsBlock(s: Limiter, limitType: string, identifier: string, t: int)
    requires identifier !in s.blocked && limitType in s.configs
    requires s.configs[limitType].maxRequests >= 3 && s.configs[limitType].windowMs >= 150
    requires Key(limitType, identifier) !in s.limits
    ensures var config := s.configs[limitType];
      var r := Run(s, limitType, identifier, [t, t + 50, t + 100, t + 150]);
      && r.1 == [Answer(Allow(config.maxRequests - 1, t + config.windowMs)),
                 Answer(Allow(config.maxRequests - 2, t + config.windowMs)),
                 Answer(Allow(config.maxRequests - 3, t + config.windowMs)),
                 Answer(Block(HourMs))]
      && identifier in r.0.blocked
      && r.0.notices == s.notices + [SuspiciousPattern(limitType, identifier, 1),
                                     SuspiciousPattern(limitType, identifier, 2),
                                     SuspiciousPattern(limitType, identifier, 3)]
  {
    var key := Key(limitType, identifier);
    FirstCallStored(s, limitType, identifier, t);
    var st1 := AfterCheck(s, limitType, identifier, t);
    FlaggedCallAdmitted(st1.state, limitType, identifier, t + 50, Entry(1, t, t, 0));
    var st2 := AfterCheck(st1.state, limitType, identifier, t + 50);
    FlaggedCallAdmitted(st2.state, limitType, identifier, t + 100, Entry(2, t, t + 50, 1));
    var st3 := AfterCheck(st2.state, limitType, identifier, t + 100);
    FlaggedCallBlocks(st3.state, limitType, identifier, t + 150, Entry(3, t, t + 100, 2));
    var st4 := AfterCheck(st3.state, limitType, identifier, t + 150);
    assert Run(st4.state, limitType, identifier, []) == (st4.state, []);
    RunCons(st3.state, limitType, identifier, t + 150, []);
    assert [t + 150] + [] == [t + 150];
    RunCons(st2.state, limitType, identifier, t + 100, [t + 150]);
    assert [t + 100] + [t + 150] == [t + 100, t + 150];
    RunCons(st1.state, limitType, identifier, t + 50, [t + 100, t + 150]);
    assert [t + 50] + [t + 100, t + 150] == [t + 50, t + 100, t + 150];
    RunCons(s, limitType, identifier, t, [t + 50, t + 100, t + 150]);
    assert [t] + [t + 50, t + 100, t + 150] == [t, t + 50, t + 100, t + 150];
  }

  /** The hit counter handleLimitReached keeps for the key. */
  function Hits(s: Limiter, limitType: string, identifier: string): nat
  {
    var vk := Key(limitType, identifier);
    if vk in s.suspicious then s.suspicious[vk] else 0
  }

  /** A call that is neither blocked nor flagged and finds its live window full is refused
    * until the window ends, and the limit type's callback runs. */
  lemma FullWindowRefuses(s: Limiter, limitType: string, identifier: string, now: int)
    requires identifier !in s.blocked && limitType in s.configs
    requires var key := Key(limitType, identifier);
      && key in s.limits
      && now - s.limits[key].windowStart <= s.configs[limitType].windowMs
      && s.limits[key].requests >= s.configs[limitType].maxRequests
    requires !Suspicious(s, limitType, identifier, now)
    ensures var config := s.configs[limitType];
      var resetTime := s.limits[Key(limitType, identifier)].windowStart + config.windowMs;
      AfterCheck(s, limitType, identifier, now) ==
        Step(Notify(s, config.onLimitReached, identifier), Answer(Exceeded(resetTime, Max(0, resetTime - now))))
  {
  }

  /** With the default callback such a refusal is a limit hit: the counter grows by one,
    * the limit is reported, and the identifier is blocked on the fourth hit. */
  lemma FullWindowEscalates(s: Limiter, limitType: string, identifier: string, now: int)
    requires identifier !in s.blocked && limitType in s.configs
    requires s.configs[limitType].onLimitReached == Escalate(limitType)
    requires var key := Key(limitType, identifier);
      && key in s.limits
      && now - s.limits[key].windowStart <= s.configs[limitType].windowMs
      && s.limits[key].requests >= s.configs[limitType].maxRequests
    requires !Suspicious(s, limitType, identifier, now)
    ensures var r := AfterCheck(s, limitType, identifier, now).state;
      && r.limits == s.limits && r.configs == s.configs
      && Hits(r, limitType, identifier) == Hits(s, limitType, identifier) + 1
      && (identifier in r.blocked <==> Hits(s, limitType, identifier) >= BlockThreshold)
      && r.notices == s.notices + [LimitExceeded(limitType, s.configs[limitType].maxRequests)]
  {
    FullWindowRefuses(s, limitType, identifier, now);
  }

  /** The answer to a call that finds its window full after `hits` limit hits: refused
    * until `resetTime` while the identifier is not yet blocked, then the 24-hour block. */
  function RefusalAnswer(hits: nat, resetTime: int, now: int): Outcome
  {
    if hits <= BlockThreshold then Answer(Exceeded(resetTime, Max(0, resetTime - now))) else Answer(Block(DayMs))
  }

  /** One call of RefusedAnswers: refused and counted while unblocked, answered with the
    * 24-hour block once blocked; the windows and configurations stay. */
  lemma RefusalStep(s: Limiter, limitType: string, identifier: string, t: int, e: Entry, config: Config)
    requires limitType in s.configs && s.configs[limitType] == config && config.onLimitReached == Escalate(limitType)
    requires Key(limitType, identifier) in s.limits && s.limits[Key(limitType, identifier)] == e
    requires e.requests >= config.maxRequests && t - e.windowStart <= config.windowMs && Unflagged(e, config, t)
    requires Hits(s, limitType, identifier) <= BlockThreshold + 1
    requires identifier in s.blocked <==> Hits(s, limitType, identifier) > BlockThreshold
    ensures var r := AfterCheck(s, limitType, identifier, t);
      var h := Hits(s, limitType, identifier);
      && r.state.limits == s.limits && r.state.configs == s.configs
      && Hits(r.state, limitType, identifier) == (if h <= BlockThreshold then h + 1 else h)
      && (identifier in r.state.blocked <==> h + 1 > BlockThreshold)
      && r.outcome == RefusalAnswer(h, e.windowStart + config.windowMs, t)
  {
    if identifier !in s.blocked {
      FullWindowEscalates(s, limitType, identifier, t);
      FullWindowRefuses(s, limitType, identifier, t);
    }
  }

  /** The answers to a run of refusals at `times`, `hits` hits counted before the first:
    * each hit is counted while the identifier is not blocked. */
  function RefusalAnswers(hits: nat, resetTime: int, times: seq<int>): (r: seq<Outcome>)
    ensures |r| == |times|
    decreases |times|
  {
    if times == [] then []
    else [RefusalAnswer(hits, resetTime, times[0])] +
         RefusalAnswers(if hits <= BlockThreshold then hits + 1 else hits, resetTime, times[1..])
  }

  /** Answer k of a run of refusals is the one given after hits + k hits. */
  lemma {:induction false} RefusalAnswersAt(hits: nat, resetTime: int, times: seq<int>)
    ensures forall k | 0 <= k < |times| ::
      RefusalAnswers(hits, resetTime, times)[k] == RefusalAnswer(hits + k, resetTime, times[k])
    decreases |times|
  {
    if times != [] {
      var hits' := if hits <= BlockThreshold then hits + 1 else hits;
      RefusalAnswersAt(hits', resetTime, times[1..]);
      forall k | 0 < k < |times|
        ensures RefusalAnswers(hits, resetTime, times)[k] == RefusalAnswer(hits + k, resetTime, times[k])
      {
        assert RefusalAnswers(hits, resetTime, times)[k] == RefusalAnswers(hits', resetTime, times[1..])[k - 1];
        assert times[k] == times[1..][k - 1];
      }
    }
  }

  /** The first call of a run of refusals, and the state `next` it leaves for the rest. */
  lemma RefusalRunStep(s: Limiter, limitType: string, identifier: string, times: seq<int>, e: Entry, config: Config)
    returns (next: Limiter)
    requires times != []
    requires limitType in s.configs && s.configs[limitType] == config && config.onLimitReached == Escalate(limitType)
    requires Key(limitType, identifier) in s.limits && s.limits[Key(limitType, identifier)] == e
    requires e.requests >= config.maxRequests
    requires times[0] - e.windowStart <= config.windowMs && Unflagged(e, config, times[0])
    requires Hits(s, limitType, identifier) <= BlockThreshold + 1
    requires identifier in s.blocked <==> Hits(s, limitType, identifier) > BlockThreshold
    ensures var h := Hits(s, limitType, identifier);
      && next.configs == s.configs && next.limits == s.limits
      && Hits(next, limitType, identifier) == (if h <= BlockThreshold then h + 1 else h)
      && (identifier in next.blocked <==> h + 1 > BlockThreshold)
      && Run(s, limitType, identifier, times).1 ==
         [RefusalAnswer(h, e.windowStart + config.windowMs, times[0])] + Run(next, limitType, identifier, times[1..]).1
      && Run(s, limitType, identifier, times).0 == Run(next, limitType, identifier, times[1..]).0
  {
    RefusalStep(s, limitType, identifier, times[0], e, config);
    next := AfterCheck(s, limitType, identifier, times[0]).state;
  }

  /** Calls that keep finding the window `e` full, none flagged: with h hits counted before,
    * call k is refused until the window ends while h + k <= 3, and from then on answered
    * with the 24-hour block. */
  lemma {:induction false} RefusedAnswers(s: Limiter, limitType: string, identifier: string, times: seq<int>,
                                          e: Entry, config: Config)
    requires limitType in s.configs && s.configs[limitType] == config && config.onLimitReached == Escalate(limitType)
    requires Key(limitType, identifier) in s.limits && s.limits[Key(limitType, identifier)] == e
    requires e.requests >= config.maxRequests
    requires forall t | t in times :: t - e.windowStart <= config.windowMs && Unflagged(e, config, t)
    requires Hits(s, limitType, identifier) <= BlockThreshold + 1
    requires identifier in s.blocked <==> Hits(s, limitType, identifier) > BlockThreshold
    ensures Run(s, limitType, identifier, times).1 ==
      RefusalAnswers(Hits(s, limitType, identifier), e.windowStart + config.windowMs, times)
    decreases |times|
  {
    if times != [] {
      assert times[0] in times;
      var next := RefusalRunStep(s, limitType, identifier, times, e, config);
      assert forall t | t in times[1..] :: t in times;
      RefusedAnswers(next, limitType, identifier, times[1..], e, config);
    }
  }

  /** The same calls leave the identifier blocked exactly when h plus the number of calls
    * exceeds 3: from a clean counter, the fourth refusal blocks. */
  lemma {:induction false} RefusalsBlockOnFourth(s: Limiter, limitType: string, identifier: string, times: seq<int>,
                                                 e: Entry, config: Config)
    requires limitType in s.configs && s.configs[limitType] == config && config.onLimitReached == Escalate(limitType)
    requires Key(limitType, identifier) in s.limits && s.limits[Key(limitType, identifier)] == e
    requires e.requests >= config.maxRequests
    requires forall t | t in times :: t - e.windowStart <= config.windowMs && Unflagged(e, config, t)
    requires Hits(s, limitType, identifier) <= BlockThreshold + 1
    requires identifier in s.blocked <==> Hits(s, limitType, identifier) > BlockThreshold
    ensures identifier in Run(s, limitType, identifier, times).0.blocked <==>
      Hits(s, limitType, identifier) + |times| > BlockThreshold
    decreases |times|
  {
    if times != [] {
      assert times[0] in times;
      var next := RefusalRunStep(s, limitType, identifier, times, e, config);
      assert forall t | t in times[1..] :: t in times;
      RefusalsBlockOnFourth(next, limitType, identifier, times[1..], e, config);
    }
  }

  /** After a reset of the key the next call behaves as for a key never seen. */
  lemma ResetThenCheckIsFresh(s: Limiter, limitType: string, identifier: string, now: int)
    requires identifier != "" && identifier !in s.blocked && limitType in s.configs
    ensures var config := s.configs[limitType];
      AfterCheck(AfterReset(s, limitType, Some(identifier)), limitType, identifier, now).outcome ==
        if config.maxRequests >= 1 then Answer(Allow(config.maxRequests - 1, now + config.windowMs))
        else Answer(Exceeded(now + config.windowMs, config.windowMs))
  {
  }

  /** `count` consecutive limit hits. */
  function LimitHits(s: Limiter, limitType: string, identifier: string, count: nat): Limiter
  {
    if count == 0 then s else AfterLimitReached(LimitHits(s, limitType, identifier, count - 1), limitType, identifier)
  }

  /** Starting with no recorded hits, the hit counter counts, and the identifier is blocked from the fourth hit on. */
  lemma {:induction false} FourthLimitHitBlocks(s: Limiter, limitType: string, identifier: string, count: nat)
    requires Key(limitType, identifier) !in s.suspicious && identifier !in s.blocked
    ensures var r := LimitHits(s, limitType, identifier, count);
      && (count > 0 ==> r.suspicious[Key(limitType, identifier)] == count)
      && (identifier in r.blocked <==> count > BlockThreshold)
  {
    if count > 0 {
      FourthLimitHitBlocks(s, limitType, identifier, count - 1);
    }
  }

  /** The outcomes of consecutive checks of one key at the given times. */
  function Run(s: Limiter, limitType: string, identifier: string, times: seq<int>): (r: (Limiter, seq<Outcome>))
    ensures |r.1| == |times|
    decreases |times|
  {
    if times == [] then (s, [])
    else
      var step := AfterCheck(s, limitType, identifier, times[0]);
      var rest := Run(step.state, limitType, identifier, times[1..]);
      (rest.0, [step.outcome] + rest.1)
  }

  /** A run starting with a call at `t` is that call followed by the rest of the run. */
  lemma RunCons(s: Limiter, limitType: string, identifier: string, t: int, rest: seq<int>)
    ensures var step := AfterCheck(s, limitType, identifier, t);
      var r := Run(step.state, limitType, identifier, rest);
      Run(s, limitType, identifier, [t] + rest) == (r.0, [step.outcome] + r.1)
  {
    assert ([t] + rest)[0] == t && ([t] + rest)[1..] == rest;
  }

  /** No call of the run is flagged by the suspicious-pattern detector. */
  predicate Calm(s: Limiter, limitType: string, identifier: string, times: seq<int>)
    decreases |times|
  {
    times == [] ||
    (!Suspicious(s, limitType, identifier, times[0]) &&
     Calm(AfterCheck(s, limitType, identifier, times[0]).state, limitType, identifier, times[1..]))
  }

  /** One unflagged call inside the window of an existing entry. */
  lemma CalmStepInWindow(s: Limiter, limitType: string, identifier: string, t: int)
    requires limitType in s.configs && Key(limitType, identifier) in s.limits
    requires var config := s.configs[limitType];
      var e := s.limits[Key(limitType, identifier)];
      && e.requests <= config.maxRequests
      && (identifier in s.blocked ==> e.requests >= config.maxRequests)
      && t - e.windowStart <= config.windowMs
    requires !Suspicious(s, limitType, identifier, t)
    ensures var config := s.configs[limitType];
      var key := Key(limitType, identifier);
      var e := s.limits[key];
      var r := AfterCheck(s, limitType, identifier, t);
      && r.state.configs == s.configs
      && key in r.state.limits
      && r.state.limits[key].windowStart == e.windowStart
      && r.state.limits[key].requests == (if e.requests < config.maxRequests then e.requests + 1 else e.requests)
      && (identifier in r.state.blocked ==> r.state.limits[key].requests >= config.maxRequests)
      && (if e.requests < config.maxRequests
          then r.outcome == Answer(Allow(config.maxRequests - (e.requests + 1), e.windowStart + config.windowMs))
          else r.outcome.Answer? && !r.outcome.verdict.Allow?)
  {
  }

  /** The answer to a call that finds `n` requests already in a window ending at `resetTime`. */
  predicate AnsweredAs(o: Outcome, n: int, maxRequests: nat, resetTime: int)
  {
    if n < maxRequests then o == Answer(Allow(maxRequests - (n + 1), resetTime))
    else o.Answer? && !o.verdict.Allow?
  }

  /** One unflagged call that finds `requests` calls in a window starting at
    * `windowStart`: an existing window of the key, or none yet (then the call
    * opens one at its own time). */
  lemma CalmStep(s: Limiter, limitType: string, identifier: string, t: int,
                 config: Config, requests: nat, windowStart: int)
    requires limitType in s.configs && s.configs[limitType] == config
    requires var key := Key(limitType, identifier);
      || (key in s.limits && s.limits[key].requests == requests && s.limits[key].windowStart == windowStart)
      || (key !in s.limits && requests == 0 && windowStart == t && identifier !in s.blocked && config.maxRequests >= 1)
    requires requests <= config.maxRequests
    requires identifier in s.blocked ==> requests >= config.maxRequests
    requires t - windowStart <= config.windowMs
    requires !Suspicious(s, limitType, identifier, t)
    ensures var key := Key(limitType, identifier);
      var r := AfterCheck(s, limitType, identifier, t);
      && r.state.configs == s.configs
      && key in r.state.limits
      && r.state.limits[key].windowStart == windowStart
      && r.state.limits[key].requests == (if requests < config.maxRequests then requests + 1 else requests)
      && (identifier in r.state.blocked ==> r.state.limits[key].requests >= config.maxRequests)
      && AnsweredAs(r.outcome, requests, config.maxRequests, windowStart + config.windowMs)
  {
    if Key(limitType, identifier) in s.limits {
      CalmStepInWindow(s, limitType, identifier, t);
    } else {
      FreshWindowAllows(s, limitType, identifier, t);
    }
  }

  /** Within one window, and with no call flagged, the calls are admitted while the
    * window's count is below the maximum, each reporting what remains, and refused after.
    * The window is the key's existing one, or, with no window yet, the one the first call
    * opens; counting from that first call (`requests` = 0), exactly the first maxRequests
    * calls are admitted. */
  lemma {:induction false} WindowAdmitsUpToMax(s: Limiter, limitType: string, identifier: string, times: seq<int>,
                                               config: Config, requests: nat, windowStart: int)
    requires limitType in s.configs && s.configs[limitType] == config
    requires var key := Key(limitType, identifier);
      || (key in s.limits && s.limits[key].requests == requests && s.limits[key].windowStart == windowStart)
      || (key !in s.limits && requests == 0 && times != [] && windowStart == times[0]
          && identifier !in s.blocked && config.maxRequests >= 1)
    requires requests <= config.maxRequests
    requires identifier in s.blocked ==> requests >= config.maxRequests
    requires forall t | t in times :: t - windowStart <= config.windowMs
    requires Calm(s, limitType, identifier, times)
    ensures var outcomes := Run(s, limitType, identifier, times).1;
      forall k | 0 <= k < |times| ::
        AnsweredAs(outcomes[k], requests + k, config.maxRequests, windowStart + config.windowMs)
    decreases |times|
  {
    if times != [] {
      var key := Key(limitType, identifier);
      assert times[0] in times;
      CalmStep(s, limitType, identifier, times[0], config, requests, windowStart);
      var step := AfterCheck(s, limitType, identifier, times[0]);
      var s' := step.state;
      var requests' := s'.limits[key].requests;
      forall t | t in times[1..] ensures t - windowStart <= config.windowMs {
        assert t in times;
      }
      WindowAdmitsUpToMax(s', limitType, identifier, times[1..], config, requests', windowStart);
      var outcomes := Run(s, limitType, identifier, times).1;
      var rest := Run(s', limitType, identifier, times[1..]).1;
      assert outcomes == [step.outcome] + rest;
      forall k | 0 < k < |times|
        ensures AnsweredAs(outcomes[k], requests + k, config.maxRequests, windowStart + config.windowMs)
      {
        assert outcomes[k] == rest[k - 1];
        assert AnsweredAs(Run(s', limitType, identifier, times[1..]).1[k - 1], requests' + (k - 1), config.maxRequests, windowStart + config.windowMs);
      }
    }
  }

  /** The first call of a run opens the window and is admitted; `next` is the state it leaves. */
  lemma FirstCallOpensWindow(s: Limiter, limitType: string, identifier: string, times: seq<int>) returns (next: Limiter)
    requires limitType in s.configs && s.configs[limitType].maxRequests >= 1
    requires identifier !in s.blocked && Key(limitType, identifier) !in s.limits
    requires |times| >= 1 && Calm(s, limitType, identifier, times)
    ensures var config := s.configs[limitType];
      var key := Key(limitType, identifier);
      && next.configs == s.configs && identifier !in next.blocked
      && key in next.limits && next.limits[key].requests == 1 && next.limits[key].windowStart == times[0]
      && Calm(next, limitType, identifier, times[1..])
      && Run(s, limitType, identifier, times).1 ==
         [Answer(Allow(config.maxRequests - 1, times[0] + config.windowMs))] + Run(next, limitType, identifier, times[1..]).1
  {
    FreshWindowAllows(s, limitType, identifier, times[0]);
    next := AfterCheck(s, limitType, identifier, times[0]).state;
  }

  /** The sweep only removes windows a later check would restart anyway, so no
    * answer changes (for limit types without a colon, which the sweep would
    * look up under a different name). */
  lemma CleanupKeepsAnswers(s: Limiter, sweptAt: int, limitType: string, identifier: string, now: int)
    requires ':' !in limitType && sweptAt <= now
    ensures AfterCheck(AfterCleanup(s, sweptAt), limitType, identifier, now).outcome ==
            AfterCheck(s, limitType, identifier, now).outcome
  {
    var key := Key(limitType, identifier);
    var c := AfterCleanup(s, sweptAt);
    if identifier !in s.blocked && limitType in s.configs && key in s.limits && key !in c.limits {
      FirstSegmentOfKey(limitType, identifier);
      assert now - s.limits[key].windowStart > s.configs[limitType].windowMs;
    }
  }

  /** After unblocking, the 24-hour block is gone and no limit type remembers a hit for the identifier. */
  lemma UnblockForgets(s: Limiter, identifier: string, limitType: string, now: int)
    requires NoDup(s.blocked)
    ensures var u := AfterUnblock(s, identifier);
      && identifier !in u.blocked
      && Key(limitType, identifier) !in u.suspicious
      && AfterCheck(u, limitType, identifier, now).outcome != Answer(Block(DayMs))
  {
    var u := AfterUnblock(s, identifier);
    var k := Key(limitType, identifier);
    assert k[|k| - |":" + identifier|..] == ":" + identifier;
  }

  /** Resetting a limit type leaves nothing to count for it. */
  lemma ResetTypeClearsStats(s: Limiter, limitType: string)
    ensures var st := StatsOf(AfterReset(s, limitType, None), limitType);
      st.totalRequests == 0 && st.activeWindows == 0 && st.violations == 0
  {
    var r := AfterReset(s, limitType, None);
    assert PrefixKeys(r.limits, limitType + ":") == {};
  }

  // ---------------------------------------------------------------------
  // The limiter object

  class AdvancedRateLimit {
    var limits: map<string, Entry>
    var configs: map<string, Config>
    var blocked: seq<string>
    var suspicious: map<string, nat>
    var notices: seq<Notice>

    predicate Valid()
      reads this
    {
      NoDup(blocked)
    }

    function State(): Limiter
      reads this
    {
      Limiter(limits, configs, blocked, suspicious, notices)
    }

    /** The constructor registers the default limits. */
    constructor ()
      ensures Valid() && State() == Initial()
    {
      limits := map[];
      configs := DefaultConfigs();
      blocked := [];
      suspicious := map[];
      notices := [];
    }

    method HandleLimitReached(limitType: string, identifier: string)
      requires Valid()
      modifies this
      ensures Valid() && State() == AfterLimitReached(old(State()), limitType, identifier)
    {
      var violationKey := Key(limitType, identifier);
      var violations := if violationKey in suspicious then suspicious[violationKey] else 0;
      suspicious := suspicious[violationKey := violations + 1];
      notices := notices + [LimitExceeded(limitType, ReportedLimit(configs, limitType))];
      if violations >= BlockThreshold {
        blocked := SetAdd(blocked, identifier);
      }
    }

    method Check(limitType: string, identifier: string, now: int) returns (outcome: Outcome)
      requires Valid()
      modifies this
      ensures Valid()
      ensures var step := AfterCheck(old(State()), limitType, identifier, now);
        State() == step.state && outcome == step.outcome
    {
      if identifier in blocked {
        return Answer(Block(DayMs));
      }
      if limitType !in configs {
        return MissingConfig(limitType);
      }
      var config := configs[limitType];
      var key := Key(limitType, identifier);
      var entry := Entry(0, now, 0, 0);
      var reused := false;
      if key in limits && now - limits[key].windowStart <= config.windowMs {
        entry := limits[key];
        reused := true;
      }
      if Suspicious(State(), limitType, identifier, now) {
        notices := notices + [SuspiciousPattern(limitType, identifier, entry.requests)];
        entry := entry.(violations := entry.violations + 1);
        if reused {
          limits := limits[key := entry];
        }
        if entry.violations >= BlockThreshold {
          blocked := SetAdd(blocked, identifier);
          return Answer(Block(HourMs));
        }
      }
      if entry.requests >= config.maxRequests {
        var resetTime := entry.windowStart + config.windowMs;
        match config.onLimitReached {
          case NoCallback =>
          case Escalate(t) => HandleLimitReached(t, identifier);
        }
        return Answer(Exceeded(resetTime, Max(0, resetTime - now)));
      }
      entry := entry.(requests := entry.requests + 1, lastRequest := now);
      limits := limits[key := entry];
      return Answer(Allow(config.maxRequests - entry.requests, entry.windowStart + config.windowMs));
    }

    /** Contact-form and login identifiers are compared without regard to case. */
    method CheckContactForm(email: string, now: int) returns (outcome: Outcome)
      requires Valid()
      modifies this
      ensures Valid()
      ensures var step := AfterCheck(old(State()), "contact_form", Lower(email), now);
        State() == step.state && outcome == step.outcome
    {
      outcome := Check("contact_form", Lower(email), now);
    }

    method CheckLoginAttempts(identifier: string, now: int) returns (outcome: Outcome)
      requires Valid()
      modifies this
      ensures Valid()
      ensures var step := AfterCheck(old(State()), "login_attempts", Lower(identifier), now);
        State() == step.state && outcome == step.outcome
    {
      outcome := Check("login_attempts", Lower(identifier), now);
    }

    method CheckAPIRequests(identifier: string, now: int) returns (outcome: Outcome)
      requires Valid()
      modifies this
      ensures Valid()
      ensures var step := AfterCheck(old(State()), "api_requests", identifier, now);
        State() == step.state && outcome == step.outcome
    {
      outcome := Check("api_requests", identifier, now);
    }

    method CheckSearchRequests(identifier: string, now: int) returns (outcome: Outcome)
      requires Valid()
      modifies this
      ensures Valid()
      ensures var step := AfterCheck(old(State()), "search_requests", identifier, now);
        State() == step.state && outcome == step.outcome
    {
      outcome := Check("search_requests", identifier, now);
    }

    method CheckFileUploads(identifier: string, now: int) returns (outcome: Outcome)
      requires Valid()
      modifies this
      ensures Valid()
      ensures var step := AfterCheck(old(State()), "file_uploads", identifier, now);
        State() == step.state && outcome == step.outcome
    {
      outcome := Check("file_uploads", identifier, now);
    }

    method AddCustomLimit(limitType: string, config: Config)
      modifies this
      ensures configs == old(configs)[limitType := config]
      ensures limits == old(limits) && blocked == old(blocked) && suspicious == old(suspicious) && notices == old(notices)
    {
      configs := configs[limitType := config];
    }

    /** Deletes every window whose key starts with `prefix`. */
    method DeletePrefixed(prefix: string)
      modifies this
      ensures limits == WithoutPrefix(old(limits), prefix)
      ensures configs == old(configs) && blocked == old(blocked) && suspicious == old(suspicious) && notices == old(notices)
    {
      ghost var original := limits;
      var pending := limits.Keys;
      while pending != {}
        invariant pending <= original.Keys
        invariant limits == map k | k in original && (k in pending || !StartsWith(k, prefix)) :: original[k]
        invariant configs == old(configs) && blocked == old(blocked) && suspicious == old(suspicious) && notices == old(notices)
        decreases pending
      {
        var key :| key in pending;
        if StartsWith(key, prefix) {
          limits := limits - {key};
        }
        pending := pending - {key};
      }
    }

    method RemoveLimit(limitType: string)
      modifies this
      ensures State() == AfterRemoveLimit(old(State()), limitType)
    {
      configs := configs - {limitType};
      DeletePrefixed(limitType + ":");
    }

    method Reset(limitType: string, identifier: Option<string>)
      modifies this
      ensures State() == AfterReset(old(State()), limitType, identifier)
    {
      if identifier.Some? && identifier.value != "" {
        limits := limits - {Key(limitType, identifier.value)};
      } else {
        DeletePrefixed(limitType + ":");
      }
    }

    /** The sweep the five-minute interval runs. */
    method CleanupExpiredEntries(now: int)
      modifies this
      ensures State() == AfterCleanup(old(State()), now)
    {
      ghost var original := limits;
      var pending := limits.Keys;
      while pending != {}
        invariant pending <= original.Keys
        invariant limits == map k | k in original && (k in pending || !Expired(configs, k, original[k], now)) :: original[k]
        invariant configs == old(configs) && blocked == old(blocked) && suspicious == old(suspicious) && notices == old(notices)
        decreases pending
      {
        var key :| key in pending;
        if Expired(configs, key, limits[key], now) {
          limits := limits - {key};
        }
        pending := pending - {key};
      }
    }

    /** The first loop of getStats: sums over the windows whose key starts with `prefix`. */
    method SumWindows(prefix: string) returns (totalRequests: nat, activeWindows: nat, violations: nat)
      ensures var keys := PrefixKeys(limits, prefix);
        && totalRequests == SumEntries(limits, keys, Requests)
        && activeWindows == |keys|
        && violations == SumEntries(limits, keys, Violations)
    {
      totalRequests, activeWindows, violations := 0, 0, 0;
      var pending := limits.Keys;
      ghost var done: set<string> := {};
      while pending != {}
        invariant pending <= limits.Keys && done <= limits.Keys
        invariant forall k | k in limits :: k in done <==> k !in pending && StartsWith(k, prefix)
        invariant totalRequests == SumEntries(limits, done, Requests)
        invariant violations == SumEntries(limits, done, Violations)
        invariant activeWindows == |done|
        decreases pending
      {
        var key :| key in pending;
        if StartsWith(key, prefix) {
          var entry := limits[key];
          totalRequests := totalRequests + entry.requests;
          activeWindows := activeWindows + 1;
          violations := violations + entry.violations;
          SumEntriesAdd(limits, done, Requests, key);
          SumEntriesAdd(limits, done, Violations, key);
          done := done + {key};
        }
        pending := pending - {key};
      }
      assert done == PrefixKeys(limits, prefix);
    }

    /** The second loop of getStats: hit counters under `prefix` that reached the block threshold. */
    method CountBlocked(prefix: string) returns (blockedIdentifiers: nat)
      ensures blockedIdentifiers == |set k | k in suspicious && StartsWith(k, prefix) && suspicious[k] >= BlockThreshold|
    {
      blockedIdentifiers := 0;
      var pending := suspicious.Keys;
      ghost var counted: set<string> := {};
      while pending != {}
        invariant pending <= suspicious.Keys
        invariant counted == set k | k in suspicious && k !in pending && StartsWith(k, prefix) && suspicious[k] >= BlockThreshold
        invariant blockedIdentifiers == |counted|
        decreases pending
      {
        var key :| key in pending;
        if StartsWith(key, prefix) && suspicious[key] >= BlockThreshold {
          blockedIdentifiers := blockedIdentifiers + 1;
          counted := counted + {key};
        }
        pending := pending - {key};
      }
      assert counted == set k | k in suspicious && StartsWith(k, prefix) && suspicious[k] >= BlockThreshold;
    }

    method GetStats(limitType: string) returns (stats: Stats)
      ensures stats == StatsOf(State(), limitType)
    {
      var totalRequests, activeWindows, violations := SumWindows(limitType + ":");
      var blockedIdentifiers := CountBlocked(limitType + ":");
      stats := Stats(totalRequests, activeWindows, violations, blockedIdentifiers);
    }

    method IsIdentifierBlocked(identifier: string) returns (b: bool)
      ensures b <==> identifier in blocked
    {
      b := identifier in blocked;
    }

    method UnblockIdentifier(identifier: string)
      requires Valid()
      modifies this
      ensures Valid() && State() == AfterUnblock(old(State()), identifier)
    {
      blocked := SetDelete(blocked, identifier);
      ghost var original := suspicious;
      var suffix := ":" + identifier;
      var pending := suspicious.Keys;
      while pending != {}
        invariant pending <= original.Keys
        invariant suspicious == map k | k in original && (k in pending || !EndsWith(k, suffix)) :: original[k]
        invariant blocked == SetDelete(old(blocked), identifier) && limits == old(limits) && configs == old(configs)
        invariant notices == old(notices)
        decreases pending
      {
        var key :| key in pending;
        if EndsWith(key, suffix) {
          suspicious := suspicious - {key};
        }
        pending := pending - {key};
      }
    }

    /** The blocked identifiers, in the order they were blocked. */
    method GetBlockedIdentifiers() returns (ids: seq<string>)
      requires Valid()
      ensures NoDup(ids) && ids == blocked
    {
      ids := blocked;
    }

    method ExpireSuspicionBlock(identifier: string)
      requires Valid()
      modifies this
      ensures Valid() && State() == AfterSuspicionBlockExpires(old(State()), identifier)
    {
      blocked := SetDelete(blocked, identifier);
    }

    method ExpireLimitBlock(limitType: string, identifier: string)
      requires Valid()
      modifies this
      ensures Valid() && State() == AfterLimitBlockExpires(old(State()), limitType, identifier)
    {
      blocked := SetDelete(blocked, identifier);
      suspicious := suspicious - {Key(limitType, identifier)};
    }
  }
}
