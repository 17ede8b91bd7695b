// The form validators of src/utils/validation.ts: the field rules of the
// contact schema (each a list of the messages its checks produce, in order),
// the content filters and the schema-level refinement, the storage-backed
// attempt limiter, sanitizeText and validateFile.
//
// Zod runs every check of a string field and collects one issue per failed
// check, so a field's issues are modelled as the list of failed checks'
// messages; the field is accepted when that list is empty.  The generic
// `.email()` check of the schema library is a boolean parameter.

module Validation {
  import opened Common
  import opened SecurityHeaders

  // ---------------------------------------------------------------------
  // Character counting

  function CountOf(s: string, c: char): nat
  {
    if s == [] then 0 else (if s[0] == c then 1 else 0) + CountOf(s[1..], c)
  }

  lemma {:induction false} CountOfAppend(a: string, b: string, c: char)
    ensures CountOf(a + b, c) == CountOf(a, c) + CountOf(b, c)
  {
    if a == [] {
      assert a + b == b;
    } else {
      assert (a + b)[1..] == a[1..] + b;
      CountOfAppend(a[1..], b, c);
    }
  }

  lemma {:induction false} CountOfZero(s: string, c: char)
    ensures CountOf(s, c) == 0 <==> c !in s
  {
    if s != [] {
      CountOfZero(s[1..], c);
      assert s == [s[0]] + s[1..];
    }
  }

  /** `s.split(c)` has one more piece than `s` has separators. */
  lemma {:induction false} SplitLength(s: string, c: char)
    ensures |Split(s, c)| == CountOf(s, c) + 1
    decreases |s|
  {
    if c !in s {
      CountOfZero(s, c);
    } else {
      var i := IndexOf(s, c);
      assert s == s[..i] + [c] + s[i + 1..];
      CountOfAppend(s[..i] + [c], s[i + 1..], c);
      CountOfAppend(s[..i], [c], c);
      CountOfZero(s[..i], c);
      SplitLength(s[i + 1..], c);
    }
  }

  // ---------------------------------------------------------------------
  // Email

  /** The local part rule: at most 64 characters (the limit of section 4.5.3.1.1
    * of RFC 5321), no leading or trailing '.', no "..". */
  predicate LocalPartOk(local: string)
  {
    |local| <= 64 && !StartsWith(local, ".") && !EndsWith(local, ".") && !Contains(local, "..")
  }

  /** The domain rule: at most 253 characters and at least one '.'. */
  predicate DomainOk(domain: string)
  {
    |domain| <= 253 && Contains(domain, ".")
  }

  /** The schema's extra email refinement, on the pieces of `email.split('@')`. */
  predicate EmailShape(email: string)
  {
    var parts := Split(email, '@');
    |parts| == 2 && LocalPartOk(parts[0]) && DomainOk(parts[1])
  }

  /** The refinement holds exactly when there is one '@', with a valid local part
    * before it and a valid domain after it. */
  lemma EmailShapeIff(email: string)
    ensures EmailShape(email) <==>
      && CountOf(email, '@') == 1
      && '@' in email
      && LocalPartOk(email[..IndexOf(email, '@')])
      && DomainOk(email[IndexOf(email, '@') + 1..])
  {
    SplitLength(email, '@');
    CountOfZero(email, '@');
    if CountOf(email, '@') == 1 {
      var i := IndexOf(email, '@');
      var rest := email[i + 1..];
      assert email == email[..i] + ['@'] + rest;
      CountOfAppend(email[..i] + ['@'], rest, '@');
      CountOfAppend(email[..i], ['@'], '@');
      CountOfZero(email[..i], '@');
      CountOfZero(rest, '@');
      assert Split(email, '@') == [email[..i], rest];
    }
  }

  /** The issues of the email field, in the order its checks run. */
  function EmailIssues(email: string, libraryEmailOk: bool): (r: seq<string>)
    ensures r == [] <==> |email| >= 1 && libraryEmailOk && |email| <= 254 && EmailShape(email)
  {
    (if |email| < 1 then ["Email is required"] else [])
    + (if !libraryEmailOk then ["Please enter a valid email address"] else [])
    + (if |email| > 254 then ["Email is too long"] else [])
    + (if !EmailShape(email) then ["Please enter a valid email address"] else [])
  }

  // ---------------------------------------------------------------------
  // Password

  predicate IsSpecial(c: char)
  {
    c == '!' || c == '@' || c == '#' || c == '$' || c == '%' || c == '^' || c == '&' || c == '*'
    || c == '(' || c == ')' || c == ',' || c == '.' || c == '?' || c == '"' || c == ':' || c == '{'
    || c == '}' || c == '|' || c == '<' || c == '>'
  }

  predicate Has(s: string, p: char -> bool)
  {
    exists i :: 0 <= i < |s| && p(s[i])
  }

  function PasswordIssues(password: string): (r: seq<string>)
    ensures r == [] <==> (8 <= |password| <= 128 && Has(password, IsAsciiUpper) && Has(password, IsAsciiLower)
      && Has(password, IsDigit) && Has(password, IsSpecial))
  {
    (if |password| < 8 then ["Password must be at least 8 characters"] else [])
    + (if |password| > 128 then ["Password is too long"] else [])
    + (if !Has(password, IsAsciiUpper) then ["Password must contain at least one uppercase letter"] else [])
    + (if !Has(password, IsAsciiLower) then ["Password must contain at least one lowercase letter"] else [])
    + (if !Has(password, IsDigit) then ["Password must contain at least one number"] else [])
    + (if !Has(password, IsSpecial) then ["Password must contain at least one special character"] else [])
  }

  /** Four distinct positions holding an upper-case letter, a lower-case letter, a digit
    * and a special character. */
  predicate FourKinds(password: string, i: int, j: int, k: int, l: int)
  {
    && 0 <= i < |password| && 0 <= j < |password| && 0 <= k < |password| && 0 <= l < |password|
    && IsAsciiUpper(password[i]) && IsAsciiLower(password[j]) && IsDigit(password[k]) && IsSpecial(password[l])
    && i != j && i != k && i != l && j != k && j != l && k != l
  }

  /** An accepted password has 8 to 128 characters and four distinct positions holding
    * an upper-case letter, a lower-case letter, a digit and a special character. */
  lemma AcceptedPasswordHasFourKinds(password: string)
    requires PasswordIssues(password) == []
    ensures 8 <= |password| <= 128
    ensures exists i, j, k, l :: FourKinds(password, i, j, k, l)
  {
    var i :| 0 <= i < |password| && IsAsciiUpper(password[i]);
    var j :| 0 <= j < |password| && IsAsciiLower(password[j]);
    var k :| 0 <= k < |password| && IsDigit(password[k]);
    var l :| 0 <= l < |password| && IsSpecial(password[l]);
    assert !IsSpecial(password[i]) && !IsSpecial(password[j]) && !IsSpecial(password[k]);
    assert FourKinds(password, i, j, k, l);
  }

  /** Conversely, one character of each kind in a password of 8 to 128 characters
    * makes it acceptable. */
  lemma FourKindsAccepted(password: string, i: nat, j: nat, k: nat, l: nat)
    requires 8 <= |password| <= 128 && i < |password| && j < |password| && k < |password| && l < |password|
    requires IsAsciiUpper(password[i]) && IsAsciiLower(password[j]) && IsDigit(password[k]) && IsSpecial(password[l])
    ensures PasswordIssues(password) == []
  {
    assert Has(password, IsAsciiUpper) && Has(password, IsAsciiLower);
    assert Has(password, IsDigit) && Has(password, IsSpecial);
  }

  /** A short password collects every message whose rule it breaks; the empty one all five. */
  lemma EmptyPasswordIssues()
    ensures |PasswordIssues("")| == 5
  {
  }

  // ---------------------------------------------------------------------
  // Name, message and company name

  predicate IsNameChar(c: char)
  {
    IsAsciiLetter(c) || IsJsSpace(c) || c == '-' || c == '\''
  }

  function NameIssues(name: string): (r: seq<string>)
    ensures r == [] <==> 2 <= |name| <= 50 && forall i :: 0 <= i < |name| ==> IsNameChar(name[i])
  {
    (if |name| < 1 then ["Name is required"] else [])
    + (if |name| < 2 then ["Name must be at least 2 characters"] else [])
    + (if |name| > 50 then ["Name is too long"] else [])
    + (if !(|name| > 0 && forall i :: 0 <= i < |name| ==> IsNameChar(name[i]))
       then ["Name can only contain letters, spaces, hyphens, and apostrophes"] else [])
  }

  /** `(.)\1{4,}` at `i`: a character other than a line terminator, then four more of it. */
  predicate RepeatAt(m: string, i: int)
  {
    0 <= i && i + 5 <= |m| && !IsLineTerminator(m[i])
    && m[i + 1] == m[i] && m[i + 2] == m[i] && m[i + 3] == m[i] && m[i + 4] == m[i]
  }

  /** The regular-expression test, trying each start position from the left. */
  predicate HasRepeat(m: string)
    decreases |m|
  {
    |m| >= 5 && (RepeatAt(m, 0) || HasRepeat(m[1..]))
  }

  lemma {:induction false} HasRepeatIff(m: string)
    ensures HasRepeat(m) <==> exists i :: RepeatAt(m, i)
    decreases |m|
  {
    if |m| >= 5 {
      HasRepeatIff(m[1..]);
      if exists i :: RepeatAt(m[1..], i) {
        var i :| RepeatAt(m[1..], i);
        assert RepeatAt(m, i + 1);
      }
      if exists i :: RepeatAt(m, i) {
        var i :| RepeatAt(m, i);
        if i > 0 {
          assert RepeatAt(m[1..], i - 1);
        }
      }
    }
  }

  function MessageIssues(message: string): (r: seq<string>)
    ensures r == [] <==> 10 <= |message| <= 5000 && !HasRepeat(message)
  {
    (if |message| < 1 then ["Message is required"] else [])
    + (if |message| < 10 then ["Message must be at least 10 characters"] else [])
    + (if |message| > 5000 then ["Message is too long"] else [])
    + (if HasRepeat(message) then ["Message contains too many repeated characters"] else [])
  }

  /** Five line breaks in a row are allowed, five spaces are not. */
  lemma RepeatIgnoresLineBreaks(m: string)
    requires m == "\n\n\n\n\n" || m == "     "
    ensures HasRepeat(m) <==> m == "     "
  {
    if m == "     " {
      assert RepeatAt(m, 0);
    } else {
      assert !RepeatAt(m, 0) && !HasRepeat(m[1..]);
    }
  }

  predicate IsCompanyChar(c: char)
  {
    IsAsciiLetter(c) || IsDigit(c) || IsJsSpace(c) || c in "-&.,'\"()"
  }

  function CompanyIssues(company: string): (r: seq<string>)
    ensures r == [] <==> 1 <= |company| <= 100 && forall i :: 0 <= i < |company| ==> IsCompanyChar(company[i])
  {
    (if |company| < 1 then ["Company name is required"] else [])
    + (if |company| > 100 then ["Company name is too long"] else [])
    + (if !(|company| > 0 && forall i :: 0 <= i < |company| ==> IsCompanyChar(company[i]))
       then ["Company name contains invalid characters"] else [])
  }

  const BudgetRanges: seq<string> := ["$500 - $1,000", "$1,000 - $5,000", "$5,000 - $10,000", "$10,000+"]

  const Services: seq<string> :=
    ["Digital Marketing", "Web Design & Development", "Branding & Identity", "Content Creation", "Multiple Services"]

  // ---------------------------------------------------------------------
  // Content filters

  const ProfanityWords: seq<string> := ["spam", "scam", "fake", "fraud"]

  /** The alternatives of the four injection patterns, lower case; each pattern has
    * the i flag.  The first pattern's `\\u0027` is a backslash followed by "u0027". */
  const SqlTokens: seq<string> := [
    "'", "\\u0027", "\\u00271", "%27", "%22",
    "union", "select", "insert", "delete", "update", "drop", "create", "alter", "exec", "execute",
    "script", "javascript", "vbscript", "onload", "onerror", "onclick",
    "<", ">", "%3c", "%3e"]

  /** Whether `text` contains one of `words` case-insensitively (`words.some`). */
  predicate ContainsAnyCI(text: string, words: seq<string>)
  {
    words != [] && (ContainsCI(text, words[0]) || ContainsAnyCI(text, words[1..]))
  }

  lemma {:induction false} ContainsAnyCIIff(text: string, words: seq<string>)
    ensures ContainsAnyCI(text, words) <==> exists k :: 0 <= k < |words| && ContainsCI(text, words[k])
  {
    if words != [] {
      ContainsAnyCIIff(text, words[1..]);
      if exists k :: 0 <= k < |words| && ContainsCI(text, words[k]) {
        var k :| 0 <= k < |words| && ContainsCI(text, words[k]);
        if k > 0 {
          assert words[1..][k - 1] == words[k];
        }
      }
    }
  }

  predicate ContainsProfanity(text: string)
  {
    ContainsAnyCI(text, ProfanityWords)
  }

  predicate ContainsSqlInjection(text: string)
  {
    ContainsAnyCI(text, SqlTokens)
  }

  /** containsXSS tests the very patterns sanitizeHTML removes. */
  predicate ContainsXss(text: string)
  {
    !Sanitized(text)
  }

  /** XSS is detected exactly when sanitizeHTML would delete something. */
  lemma XssIffSanitizerShortens(text: string)
    ensures ContainsXss(text) <==> |SanitizeHtml(text)| < |text|
  {
    if !ContainsXss(text) {
      SanitizedIsFixedPoint(text);
    }
    if |SanitizeHtml(text)| == |text| {
      SanitizeKeepsLength(text);
    }
  }

  /** Any quote or angle bracket counts as injection. */
  lemma QuoteIsInjection(text: string, i: nat)
    requires i < |text| && (text[i] == '\'' || text[i] == '<' || text[i] == '>')
    ensures ContainsSqlInjection(text)
  {
    var w := [text[i]];
    var k := if text[i] == '\'' then 0 else if text[i] == '<' then 21 else 22;
    assert SqlTokens[k] == w;
    assert Lower(text)[i..i + 1] == w;
    assert OccursAt(Lower(text), w, i);
    ContainsAnyCIIff(text, SqlTokens);
  }

  // ---------------------------------------------------------------------
  // The contact schema

  datatype ContactForm = ContactForm(
    fullName: string, email: string, companyName: Option<string>, serviceInterested: string,
    budgetRange: string, projectDetails: string, honeypot: string)

  /** `[fullName, projectDetails, companyName].filter(Boolean)`. */
  function TextFields(data: ContactForm): (r: seq<string>)
    ensures forall f :: f in r <==> (f != "" &&
      (f == data.fullName || f == data.projectDetails || (data.companyName.Some? && f == data.companyName.value)))
  {
    var all := [data.fullName, data.projectDetails] + (if data.companyName.Some? then [data.companyName.value] else []);
    Filter(all, (f: string) => f != "")
  }

  predicate Flagged(field: string)
  {
    ContainsProfanity(field) || ContainsSqlInjection(field) || ContainsXss(field)
  }

  /** No field of the list trips a check. */
  predicate AllSafe(fields: seq<string>)
  {
    forall j :: 0 <= j < |fields| ==> !Flagged(fields[j])
  }

  predicate SafeContent(data: ContactForm)
  {
    AllSafe(TextFields(data))
  }

  /** The refinement's loop: the first flagged field rejects the form. */
  method CheckContent(data: ContactForm) returns (ok: bool)
    ensures ok <==> SafeContent(data)
  {
    var fields := TextFields(data);
    var i := 0;
    while i < |fields|
      invariant 0 <= i <= |fields|
      invariant AllSafe(fields[..i])
    {
      if Flagged(fields[i]) {
        assert !AllSafe(fields);
        return false;
      }
      assert fields[..i + 1] == fields[..i] + [fields[i]];
      i := i + 1;
    }
    assert fields[..i] == fields;
    return true;
  }

  /** The whole schema: every field rule, the empty honeypot, and the content check. */
  predicate FormAccepted(data: ContactForm, libraryEmailOk: bool)
  {
    && NameIssues(data.fullName) == []
    && EmailIssues(data.email, libraryEmailOk) == []
    && (data.companyName.Some? ==> CompanyIssues(data.companyName.value) == [])
    && data.serviceInterested in Services
    && data.budgetRange in BudgetRanges
    && MessageIssues(data.projectDetails) == []
    && |data.honeypot| == 0
    && SafeContent(data)
  }

  /** A present but empty company name is rejected: only an absent one is optional. */
  lemma EmptyCompanyRejected(data: ContactForm, libraryEmailOk: bool)
    requires data.companyName == Some("")
    ensures !FormAccepted(data, libraryEmailOk)
  {
  }

  /** An accepted form carries no apostrophe in the name, since apostrophes count as
    * injection, although the name rule itself allows them. */
  lemma AcceptedNameHasNoApostrophe(data: ContactForm, libraryEmailOk: bool, i: nat)
    requires FormAccepted(data, libraryEmailOk) && i < |data.fullName|
    ensures data.fullName[i] != '\''
  {
    var fields := TextFields(data);
    assert data.fullName in fields;
    var j :| 0 <= j < |fields| && fields[j] == data.fullName;
    assert !Flagged(data.fullName);
    if data.fullName[i] == '\'' {
      QuoteIsInjection(data.fullName, i);
      assert false;
    }
  }

  // ---------------------------------------------------------------------
  // The attempt limiter over local storage

  /** A stored value: a parsed window record, or text on which reading a field
    * throws (unparsable text, `null`, or JSON that is not an object), where the
    * limiter fails open. */
  datatype Stored = Window(firstAttempt: int, attempts: int) | Malformed

  datatype Decision = Allowed | Refused(remainingMinutes: int)

  const DefaultMaxAttempts: int := 5
  const DefaultWindowMs: int := 15 * 60 * 1000

  function RateKey(identifier: string): string
  {
    "rate_limit_" + identifier
  }

  /** One call of checkRateLimit on the stored value under its key: the decision and
    * what is stored afterwards (None: nothing stored). */
  function RateStep(stored: Option<Stored>, now: int, maxAttempts: int, windowMs: int): (Decision, Option<Stored>)
  {
    match stored
    case None => (Allowed, Some(Window(now, 1)))
    case Some(Malformed) => (Allowed, stored)
    case Some(Window(first, attempts)) =>
      var passed := now - first;
      if passed < windowMs then
        if attempts >= maxAttempts then (Refused(CeilDiv(windowMs - passed, 60000)), stored)
        else (Allowed, Some(Window(first, attempts + 1)))
      else (Allowed, Some(Window(now, 1)))
  }

  /** A refusal happens only inside the window with the attempts used up, leaves the
    * record alone, and names between 1 and the window's minutes, rounded up. */
  lemma RefusalShape(stored: Option<Stored>, now: int, maxAttempts: int, windowMs: int)
    ensures var (d, after) := RateStep(stored, now, maxAttempts, windowMs);
      d.Refused? <==>
        (stored.Some? && stored.value.Window? && now - stored.value.firstAttempt < windowMs
         && stored.value.attempts >= maxAttempts)
    ensures var (d, after) := RateStep(stored, now, maxAttempts, windowMs);
      d.Refused? ==> (after == stored && d.remainingMinutes >= 1
        && (d.remainingMinutes - 1) * 60000 < windowMs - (now - stored.value.firstAttempt) <= d.remainingMinutes * 60000)
  {
  }

  /** Decisions for calls at the given times, all under one key. */
  function RateRun(stored: Option<Stored>, times: seq<int>, maxAttempts: int, windowMs: int): seq<Decision>
    decreases |times|
  {
    if times == [] then []
    else
      var (d, after) := RateStep(stored, times[0], maxAttempts, windowMs);
      [d] + RateRun(after, times[1..], maxAttempts, windowMs)
  }

  /** Inside one window, starting from `attempts` used, call i is allowed iff
    * attempts + i < maxAttempts. */
  lemma {:induction false} WindowRun(first: int, attempts: int, times: seq<int>, maxAttempts: int, windowMs: int)
    requires forall i :: 0 <= i < |times| ==> times[i] - first < windowMs
    ensures |RateRun(Some(Window(first, attempts)), times, maxAttempts, windowMs)| == |times|
    ensures forall i :: 0 <= i < |times| ==>
      (RateRun(Some(Window(first, attempts)), times, maxAttempts, windowMs)[i].Allowed? <==> attempts + i < maxAttempts)
    decreases |times|
  {
    if times != [] {
      var stored := Some(Window(first, attempts));
      if attempts >= maxAttempts {
        WindowRun(first, attempts, times[1..], maxAttempts, windowMs);
      } else {
        WindowRun(first, attempts + 1, times[1..], maxAttempts, windowMs);
      }
      var r := RateRun(stored, times, maxAttempts, windowMs);
      forall i | 0 <= i < |times| ensures r[i].Allowed? <==> attempts + i < maxAttempts {
        if i > 0 {
          assert r[i] == RateRun(RateStep(stored, times[0], maxAttempts, windowMs).1, times[1..], maxAttempts, windowMs)[i - 1];
        }
      }
    }
  }

  /** From an empty store, the first call opens the window and, within that window,
    * exactly the first max(maxAttempts, 1) calls are allowed. */
  lemma FirstAttemptsAllowed(times: seq<int>, maxAttempts: int, windowMs: int)
    requires times != []
    requires forall i :: 0 <= i < |times| ==> times[i] - times[0] < windowMs
    ensures |RateRun(None, times, maxAttempts, windowMs)| == |times|
    ensures forall i :: 0 <= i < |times| ==>
      (RateRun(None, times, maxAttempts, windowMs)[i].Allowed? <==> i == 0 || i < maxAttempts)
  {
    WindowRun(times[0], 1, times[1..], maxAttempts, windowMs);
    var r := RateRun(None, times, maxAttempts, windowMs);
    forall i | 0 < i < |times| ensures r[i].Allowed? <==> i < maxAttempts {
      assert r[i] == RateRun(Some(Window(times[0], 1)), times[1..], maxAttempts, windowMs)[i - 1];
    }
  }

  /** Local storage as the limiter sees it. */
  class AttemptStore {
    var entries: map<string, Stored>
    /** False when storage access throws (no storage, or access denied). */
    var available: bool

    constructor (entries: map<string, Stored>, available: bool)
      ensures this.entries == entries && this.available == available
    {
      this.entries := entries;
      this.available := available;
    }

    /** checkRateLimit: a read-modify-write of one key that fails open. */
    method CheckRateLimit(identifier: string, maxAttempts: int, windowMs: int, now: int) returns (d: Decision)
      modifies this
      ensures available == old(available)
      ensures !available ==> d == Allowed && entries == old(entries)
      ensures available ==>
        var key := RateKey(identifier);
        var (d', after) := RateStep(if key in old(entries) then Some(old(entries)[key]) else None, now, maxAttempts, windowMs);
        d == d' && entries == (if after.Some? then old(entries)[key := after.value] else old(entries))
    {
      if !available {
        return Allowed;
      }
      var key := RateKey(identifier);
      if key !in entries {
        entries := entries[key := Window(now, 1)];
        return Allowed;
      }
      var data := entries[key];
      if data.Malformed? {
        return Allowed;
      }
      var passed := now - data.firstAttempt;
      if passed < windowMs {
        if data.attempts >= maxAttempts {
          return Refused(CeilDiv(windowMs - passed, 60000));
        }
        data := data.(attempts := data.attempts + 1);
      } else {
        data := Window(now, 1);
      }
      entries := entries[key := data];
      return Allowed;
    }
  }

  // ---------------------------------------------------------------------
  // sanitizeText

  /** `.replace(/\s+/g, ' ')`: each run of white space becomes one space. */
  function CollapseSpaces(s: string): (r: string)
    ensures |r| <= |s|
    ensures forall i :: 0 <= i < |r| ==> !IsJsSpace(r[i]) || r[i] == ' '
    ensures forall i :: 0 <= i < |r| ==> r[i] == ' ' || r[i] in s
    decreases |s|
  {
    if s == [] then []
    else if IsJsSpace(s[0]) then
      var n := Run(s, IsJsSpace);
      assert forall i :: 0 <= i < |s[n..]| ==> s[n..][i] == s[n + i];
      [' '] + CollapseSpaces(s[n..])
    else
      assert forall i :: 0 <= i < |s[1..]| ==> s[1..][i] == s[i + 1];
      [s[0]] + CollapseSpaces(s[1..])
  }

  /** `.replace(/[<>]/g, '')`: the angle brackets are dropped and nothing else. */
  function StripAngles(s: string): (r: string)
    ensures forall c :: c in r <==> c in s && c != '<' && c != '>'
  {
    Filter(s, c => c != '<' && c != '>')
  }

  /** validationUtils.sanitizeText. */
  function SanitizeText(text: string): (r: string)
    ensures |r| <= 5000
    ensures '<' !in r && '>' !in r
    ensures forall i :: 0 <= i < |r| ==> !IsJsSpace(r[i]) || r[i] == ' '
  {
    var collapsed := CollapseSpaces(Trim(text));
    var kept := StripAngles(collapsed);
    var r := Take(kept, 5000);
    forall i | 0 <= i < |r|
      ensures r[i] != '<' && r[i] != '>' && (!IsJsSpace(r[i]) || r[i] == ' ')
    {
      assert r[i] == kept[i] && kept[i] in kept;
      var j :| 0 <= j < |collapsed| && collapsed[j] == r[i];
    }
    r
  }

  lemma {:induction false} CollapseNoSpace(s: string)
    requires forall i :: 0 <= i < |s| ==> !IsJsSpace(s[i])
    ensures CollapseSpaces(s) == s
  {
    if s != [] {
      CollapseNoSpace(s[1..]);
    }
  }

  /** Text that is already clean passes through unchanged. */
  lemma SanitizeTextKeepsClean(text: string)
    requires |text| <= 5000
    requires forall i :: 0 <= i < |text| ==> !IsJsSpace(text[i]) && text[i] != '<' && text[i] != '>'
    ensures SanitizeText(text) == text
  {
    assert TrimStart(text) == text;
    assert TrimEnd(text) == text;
    assert Trim(text) == text;
    CollapseNoSpace(text);
    assert CollapseSpaces(Trim(text)) == text;
    FilterAll(text, c => c != '<' && c != '>');
    assert StripAngles(text) == text;
    assert Take(text, 5000) == text;
  }

  // ---------------------------------------------------------------------
  // validateFile

  datatype FileInfo = FileInfo(size: int, mimeType: string, name: string)

  datatype FileOptions = FileOptions(maxSize: Option<int>, allowedTypes: Option<seq<string>>)

  datatype FileCheck = FileCheck(valid: bool, errors: seq<string>)

  const DefaultMaxSize: int := 5 * 1024 * 1024
  const DefaultAllowedTypes: seq<string> := ["image/jpeg", "image/png", "image/gif", "application/pdf"]
  const SuspiciousExtensions: seq<string> := [".exe", ".bat", ".cmd", ".scr", ".pif"]

  function SizeError(maxSize: int): string
  {
    "File size must be less than " + IntToString(RoundDiv(maxSize, 1024 * 1024)) + "MB"
  }

  function TypeError(mimeType: string): string
  {
    "File type " + mimeType + " is not allowed"
  }

  const SecurityError: string := "File type not allowed for security reasons"

  predicate Suspicious(name: string)
  {
    exists ext :: ext in SuspiciousExtensions && EndsWith(Lower(name), ext)
  }

  function ValidateFile(file: FileInfo, options: FileOptions): (r: FileCheck)
  {
    var maxSize := if options.maxSize.Some? then options.maxSize.value else DefaultMaxSize;
    var allowed := if options.allowedTypes.Some? then options.allowedTypes.value else DefaultAllowedTypes;
    var errors :=
      (if file.size > maxSize then [SizeError(maxSize)] else [])
      + (if file.mimeType !in allowed then [TypeError(file.mimeType)] else [])
      + (if Suspicious(file.name) then [SecurityError] else []);
    FileCheck(|errors| == 0, errors)
  }

  /** Each failed rule contributes its own message, in the order size, type, name;
    * the file is valid iff none failed. */
  lemma ValidateFileErrors(file: FileInfo, options: FileOptions)
    ensures var r := ValidateFile(file, options);
      var maxSize := if options.maxSize.Some? then options.maxSize.value else DefaultMaxSize;
      var allowed := if options.allowedTypes.Some? then options.allowedTypes.value else DefaultAllowedTypes;
      && (r.valid <==> file.size <= maxSize && file.mimeType in allowed && !Suspicious(file.name))
      && (r.valid <==> r.errors == [])
      && (SizeError(maxSize) in r.errors <==> file.size > maxSize)
      && (TypeError(file.mimeType) in r.errors <==> file.mimeType !in allowed)
      && (SecurityError in r.errors <==> Suspicious(file.name))
      && |r.errors| <= 3
  {
    var maxSize := if options.maxSize.Some? then options.maxSize.value else DefaultMaxSize;
    MessagesDistinct(maxSize, file.mimeType);
  }

  /** The three messages of validateFile are different from one another. */
  lemma MessagesDistinct(maxSize: int, mimeType: string)
    ensures SizeError(maxSize) != TypeError(mimeType)
    ensures SizeError(maxSize) != SecurityError && TypeError(mimeType) != SecurityError
  {
    var sizeText := "File size must be less than ";
    var se := SizeError(maxSize);
    assert se == sizeText + (IntToString(RoundDiv(maxSize, 1024 * 1024)) + "MB");
    assert se[5] == sizeText[5] == 's';
    var typeText := "File type ";
    var te := TypeError(mimeType);
    assert te == typeText + (mimeType + " is not allowed");
    assert te[5] == typeText[5] == 't';
    assert te[|te| - 1] == 'd';
    assert SecurityError[5] == 't' && SecurityError[|SecurityError| - 1] == 's';
  }

  /** The extension check ignores letter case. */
  lemma UpperCaseExeSuspicious(name: string)
    requires name == "SETUP.EXE"
    ensures Suspicious(name)
  {
    assert Lower(name)[5..] == ".exe";
    assert ".exe" in SuspiciousExtensions;
  }
}
