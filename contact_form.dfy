// The contact-form endpoint of supabase/functions/contact-form/index.ts: an
// early-return chain over the request (method, honeypot, required fields,
// email pattern, hourly limit per address, insert) followed by two
// notification emails whose outcome only reaches the console.
//
// The database table is a class over the list of stored rows; the clock, the
// new row's id, and whether the query, the insert and each email fail are
// parameters.  An email is modelled by its sender, recipient, subject and the
// labelled values its HTML template interpolates.

module ContactForm {
  import opened Common

  // ---------------------------------------------------------------------
  // Requests and responses

  /** The JSON body; a key that is absent or null is `None`. */
  datatype FormData = FormData(
    fullName: Option<string>,
    email: Option<string>,
    companyName: Option<string>,
    serviceInterested: Option<string>,
    budgetRange: Option<string>,
    projectDetails: Option<string>,
    honeypot: Option<string>)

  /** `await req.json()` either throws (with a message) or yields the form. */
  datatype Payload = Unparsable(reason: string) | Parsed(data: FormData)

  datatype Request = Request(verb: string, payload: Payload)

  /** Why a request was turned away; `ErrorText` gives the `error` field. */
  datatype Rejection =
    | MethodNotAllowed
    | SpamDetected
    | MissingField(field: Field)
    | InvalidEmail
    | TooManySubmissions
    | SaveFailed

  /** A response body: none (preflight), `{error}`, the catch-all `{error, details}`
    * whose error is `GenericFailure`, or `{success, message, submissionId}` whose
    * message is `Thanks`. */
  datatype Body =
    | NoBody
    | Failure(reason: Rejection)
    | Crash(details: string)
    | Success(submissionId: string)

  /** Every response carries the CORS headers; `json` adds the JSON content type. */
  datatype Response = Response(status: nat, body: Body, json: bool)

  datatype Env = Env(siteUrl: Option<string>, fromEmail: Option<string>, adminEmail: Option<string>)

  /** The places in the email templates where a value is interpolated. */
  datatype Label =
    | NameLine | EmailLine | CompanyLine | ServiceLine | BudgetLine | DetailsLine
    | SubmissionIdLine | Greeting | InquiryLine | PortfolioLink | BlogLink | ServicesLink

  datatype Mail = Mail(sender: string, recipient: string, subject: string, entries: seq<(Label, string)>)

  datatype Row = Row(
    id: string,
    fullName: string,
    email: string,
    companyName: Option<string>,
    serviceInterested: string,
    budgetRange: string,
    projectDetails: string,
    createdAt: int)

  /** What one call produces: the response, the row it inserted, the emails it
    * attempted and the ones whose failure it logged. */
  datatype MailKind = AdminNotice | UserConfirmation

  datatype Outcome = Outcome(response: Response, inserted: Option<Row>, mails: seq<Mail>, failedMails: seq<MailKind>)

  const HourMs: int := 60 * 60 * 1000
  const MaxPerHour: nat := 3

  function Preflight(): Response { Response(200, NoBody, false) }

  function StatusOf(e: Rejection): nat
  {
    match e
    case MethodNotAllowed => 405
    case TooManySubmissions => 429
    case SaveFailed => 500
    case _ => 400
  }

  function ErrorText(e: Rejection): string
  {
    match e
    case MethodNotAllowed => "Method not allowed"
    case SpamDetected => "Spam detected"
    case MissingField(f) => "Missing required field: " + FieldName(f)
    case InvalidEmail => "Invalid email format"
    case TooManySubmissions => "Too many submissions. Please wait before submitting again."
    case SaveFailed => "Failed to save submission"
  }

  const GenericFailure: string := "Something went wrong. Please try again later."
  const Thanks: string := "Thank you! We've received your message and will get back to you soon."

  function Reject(e: Rejection): Outcome
  {
    Outcome(Response(StatusOf(e), Failure(e), true), None, [], [])
  }

  // ---------------------------------------------------------------------
  // Field checks

  datatype Field = FullName | EmailField | ServiceInterested | BudgetRange | ProjectDetails

  function FieldName(f: Field): string
  {
    match f
    case FullName => "full_name"
    case EmailField => "email"
    case ServiceInterested => "service_interested"
    case BudgetRange => "budget_range"
    case ProjectDetails => "project_details"
  }

  const RequiredFields: seq<Field> := [FullName, EmailField, ServiceInterested, BudgetRange, ProjectDetails]

  function FieldValue(d: FormData, f: Field): Option<string>
  {
    match f
    case FullName => d.fullName
    case EmailField => d.email
    case ServiceInterested => d.serviceInterested
    case BudgetRange => d.budgetRange
    case ProjectDetails => d.projectDetails
  }

  /** JavaScript truthiness of an optional string. */
  predicate Truthy(v: Option<string>)
  {
    v.Some? && v.value != ""
  }

  /** A required field is missing when it is falsy or trims to nothing. */
  predicate IsMissing(v: Option<string>)
  {
    !Truthy(v) || Trim(v.value) == ""
  }

  /** A filled-in honeypot marks the submission as spam. */
  predicate IsSpam(d: FormData)
  {
    Truthy(d.honeypot) && Trim(d.honeypot.value) != ""
  }

  /** The first missing field of `fs`, in order. */
  function FirstMissing(d: FormData, fs: seq<Field>): (r: Option<Field>)
    ensures r.Some? ==> r.value in fs && IsMissing(FieldValue(d, r.value))
    ensures r.None? <==> forall i :: 0 <= i < |fs| ==> !IsMissing(FieldValue(d, fs[i]))
  {
    if fs == [] then None
    else if IsMissing(FieldValue(d, fs[0])) then Some(fs[0])
    else FirstMissing(d, fs[1..])
  }

  /** The field reported is the first missing one: every earlier field is present. */
  lemma {:induction false} FirstMissingAt(d: FormData, fs: seq<Field>, i: int)
    requires 0 <= i < |fs| && IsMissing(FieldValue(d, fs[i]))
    requires forall j :: 0 <= j < i ==> !IsMissing(FieldValue(d, fs[j]))
    ensures FirstMissing(d, fs) == Some(fs[i])
  {
    if i > 0 {
      var rest := fs[1..];
      assert !IsMissing(FieldValue(d, fs[0]));
      forall j | 0 <= j < i - 1
        ensures !IsMissing(FieldValue(d, rest[j]))
      {
        assert rest[j] == fs[j + 1];
      }
      assert rest[i - 1] == fs[i];
      FirstMissingAt(d, rest, i - 1);
    }
  }

  /** A value JavaScript's `\s` and the `@` exclude: the class `[^\s@]`. */
  predicate Plain(s: string)
  {
    forall i :: 0 <= i < |s| ==> !IsJsSpace(s[i]) && s[i] != '@'
  }

  /** The pattern `^[^\s@]+@[^\s@]+\.[^\s@]+$`, read literally: an '@' at `i`
    * and a '.' at `j`, with non-empty plain text around both. */
  ghost predicate EmailPattern(s: string)
  {
    exists i, j :: 0 < i && i + 1 < j && j + 1 < |s| && s[i] == '@' && s[j] == '.'
      && Plain(s[..i]) && Plain(s[i + 1..j]) && Plain(s[j + 1..])
  }

  /** A direct test of the pattern: split at the first '@' and look for a '.'
    * strictly inside the domain. */
  predicate MatchesEmail(s: string)
  {
    '@' in s &&
    var i := IndexOf(s, '@');
    var domain := s[i + 1..];
    0 < i && Plain(s[..i]) && Plain(domain) && 3 <= |domain| && '.' in domain[1..|domain| - 1]
  }

  lemma PlainSlice(s: string, a: int, b: int)
    requires Plain(s) && 0 <= a <= b <= |s|
    ensures Plain(s[a..b])
  {
    assert forall k :: 0 <= k < b - a ==> s[a..b][k] == s[a + k];
  }

  lemma PlainJoin(a: string, c: char, b: string)
    requires Plain(a) && Plain(b) && !IsJsSpace(c) && c != '@'
    ensures Plain(a + [c] + b)
  {
  }

  lemma MatchesEmailSound(s: string)
    requires MatchesEmail(s)
    ensures EmailPattern(s)
  {
    var i := IndexOf(s, '@');
    var domain := s[i + 1..];
    var inner := domain[1..|domain| - 1];
    var j := i + 2 + IndexOf(inner, '.');
    assert s[j] == '.';
    PlainSlice(domain, 0, j - i - 1);
    assert s[i + 1..j] == domain[..j - i - 1];
    PlainSlice(domain, j - i, |domain|);
    assert s[j + 1..] == domain[j - i..];
  }

  lemma MatchesEmailComplete(s: string, i: int, j: int)
    requires 0 < i && i + 1 < j && j + 1 < |s| && s[i] == '@' && s[j] == '.'
    requires Plain(s[..i]) && Plain(s[i + 1..j]) && Plain(s[j + 1..])
    ensures MatchesEmail(s)
  {
    var a, b := s[..i], s[i + 1..];
    assert s == a + ['@'] + b;
    assert '@' !in a;
    IndexOfAfter(a, '@', b);
    assert '@' in s && IndexOf(s, '@') == i;
    var mid, tail := s[i + 1..j], s[j + 1..];
    assert b == mid + ['.'] + tail by {
      assert |b| == |mid| + 1 + |tail|;
      forall k | 0 <= k < |b| ensures b[k] == (mid + ['.'] + tail)[k] {
        assert b[k] == s[i + 1 + k];
      }
    }
    PlainJoin(mid, '.', tail);
    assert Plain(b) && 3 <= |b|;
    assert b[1..|b| - 1][j - i - 2] == '.';
    assert '.' in b[1..|b| - 1];
  }

  /** The direct test agrees with the pattern on every string. */
  lemma MatchesEmailIff(s: string)
    ensures MatchesEmail(s) <==> EmailPattern(s)
  {
    if MatchesEmail(s) {
      MatchesEmailSound(s);
    }
    if EmailPattern(s) {
      var i, j :| 0 < i && i + 1 < j && j + 1 < |s| && s[i] == '@' && s[j] == '.'
        && Plain(s[..i]) && Plain(s[i + 1..j]) && Plain(s[j + 1..]);
      MatchesEmailComplete(s, i, j);
    }
  }

  // ---------------------------------------------------------------------
  // The HTML escaper used for every interpolated value

  /** A global replace of one character by a string. */
  function ReplaceChar(s: string, c: char, sub: string): (r: string)
    ensures forall x :: x in r ==> x in s || x in sub
    ensures c !in sub ==> c !in r
  {
    if s == [] then []
    else (if s[0] == c then sub else [s[0]]) + ReplaceChar(s[1..], c, sub)
  }

  lemma {:induction false} ReplaceCharAppend(a: string, b: string, c: char, sub: string)
    ensures ReplaceChar(a + b, c, sub) == ReplaceChar(a, c, sub) + ReplaceChar(b, c, sub)
  {
    if a == [] {
      assert a + b == b;
    } else {
      assert (a + b)[0] == a[0] && (a + b)[1..] == a[1..] + b;
      ReplaceCharAppend(a[1..], b, c, sub);
    }
  }

  /** `sanitizeHtml`: '&' first, then '<', '>', '"' and "'", each a global replace. */
  function SanitizeHtml(text: string): (r: string)
    ensures '<' !in r && '>' !in r && '"' !in r && '\'' !in r
  {
    var s1 := ReplaceChar(text, '&', "&amp;");
    var s2 := ReplaceChar(s1, '<', "&lt;");
    assert '<' !in "&gt;" && '<' !in "&quot;" && '<' !in "&#39;";
    var s3 := ReplaceChar(s2, '>', "&gt;");
    assert '>' !in "&quot;" && '>' !in "&#39;";
    var s4 := ReplaceChar(s3, '"', "&quot;");
    assert '"' !in "&#39;";
    ReplaceChar(s4, '\'', "&#39;")
  }

  /** The entity each character becomes, in one pass. */
  function EscapeChar(c: char): string
  {
    if c == '&' then "&amp;"
    else if c == '<' then "&lt;"
    else if c == '>' then "&gt;"
    else if c == '"' then "&quot;"
    else if c == '\'' then "&#39;"
    else [c]
  }

  function EscapeAll(s: string): string
  {
    if s == [] then [] else EscapeChar(s[0]) + EscapeAll(s[1..])
  }

  lemma SanitizeAppend(a: string, b: string)
    ensures SanitizeHtml(a + b) == SanitizeHtml(a) + SanitizeHtml(b)
  {
    ReplaceCharAppend(a, b, '&', "&amp;");
    var a1, b1 := ReplaceChar(a, '&', "&amp;"), ReplaceChar(b, '&', "&amp;");
    ReplaceCharAppend(a1, b1, '<', "&lt;");
    var a2, b2 := ReplaceChar(a1, '<', "&lt;"), ReplaceChar(b1, '<', "&lt;");
    ReplaceCharAppend(a2, b2, '>', "&gt;");
    var a3, b3 := ReplaceChar(a2, '>', "&gt;"), ReplaceChar(b2, '>', "&gt;");
    ReplaceCharAppend(a3, b3, '"', "&quot;");
    var a4, b4 := ReplaceChar(a3, '"', "&quot;"), ReplaceChar(b3, '"', "&quot;");
    ReplaceCharAppend(a4, b4, '\'', "&#39;");
  }

  /** An entity's characters other than its first are never replaced again. */
  lemma ReplaceAbsent(s: string, c: char, sub: string)
    requires c !in s
    ensures ReplaceChar(s, c, sub) == s
  {
  }

  lemma ReplaceOne(x: char, c: char, sub: string)
    ensures ReplaceChar([x], c, sub) == if x == c then sub else [x]
  {
    assert [x][1..] == [];
  }

  /** "&amp;" has none of the characters the later passes replace. */
  lemma AmpSurvives(amp: string)
    requires amp == "&amp;"
    ensures ReplaceChar(ReplaceChar(ReplaceChar(ReplaceChar(amp, '<', "&lt;"), '>', "&gt;"), '"', "&quot;"), '\'', "&#39;") == amp
  {
    assert '<' !in amp && '>' !in amp && '"' !in amp && '\'' !in amp;
    ReplaceAbsent(amp, '<', "&lt;");
    ReplaceAbsent(amp, '>', "&gt;");
    ReplaceAbsent(amp, '"', "&quot;");
    ReplaceAbsent(amp, '\'', "&#39;");
  }

  lemma SanitizeAmp(c: char)
    requires c == '&'
    ensures SanitizeHtml([c]) == EscapeChar(c)
  {
    ReplaceOne(c, '&', "&amp;");
    AmpSurvives("&amp;");
  }

  lemma SanitizeOther(c: char)
    requires c != '&'
    ensures SanitizeHtml([c]) == EscapeChar(c)
  {
    if c == '<' || c == '>' || c == '"' || c == '\'' {
      SanitizeSpecial(c);
    } else {
      SanitizePlain(c);
    }
  }

  /** A character none of the passes replaces passes through. */
  lemma SanitizePlain(c: char)
    requires c != '&' && c != '<' && c != '>' && c != '"' && c != '\''
    ensures SanitizeHtml([c]) == [c]
  {
    ReplaceOne(c, '&', "&amp;");
    ReplaceOne(c, '<', "&lt;");
    ReplaceOne(c, '>', "&gt;");
    ReplaceOne(c, '"', "&quot;");
    ReplaceOne(c, '\'', "&#39;");
  }

  /** Each of the four later characters becomes its entity at its own pass,
    * and no later pass touches the entity. */
  lemma SanitizeSpecial(c: char)
    requires c == '<' || c == '>' || c == '"' || c == '\''
    ensures SanitizeHtml([c]) == EscapeChar(c)
  {
    ReplaceOne(c, '&', "&amp;");
    var s1 := ReplaceChar([c], '&', "&amp;");
    assert s1 == [c];
    if c == '<' {
      SanitizeLtChar(s1);
    } else if c == '>' {
      SanitizeGtChar(s1);
    } else {
      SanitizeQuoteChar(s1);
    }
  }

  lemma SanitizeLtChar(s1: string)
    requires s1 == ['<']
    ensures ReplaceChar(ReplaceChar(ReplaceChar(ReplaceChar(s1, '<', "&lt;"), '>', "&gt;"), '"', "&quot;"), '\'', "&#39;") == "&lt;"
  {
    ReplaceOne('<', '<', "&lt;");
    SanitizeLt(ReplaceChar(s1, '<', "&lt;"));
  }

  lemma SanitizeGtChar(s1: string)
    requires s1 == ['>']
    ensures ReplaceChar(ReplaceChar(ReplaceChar(ReplaceChar(s1, '<', "&lt;"), '>', "&gt;"), '"', "&quot;"), '\'', "&#39;") == "&gt;"
  {
    ReplaceOne('>', '<', "&lt;");
    ReplaceOne('>', '>', "&gt;");
    SanitizeGt(ReplaceChar(s1, '>', "&gt;"));
  }

  lemma SanitizeQuoteChar(s1: string)
    requires s1 == ['"'] || s1 == ['\'']
    ensures ReplaceChar(ReplaceChar(ReplaceChar(ReplaceChar(s1, '<', "&lt;"), '>', "&gt;"), '"', "&quot;"), '\'', "&#39;")
      == EscapeChar(s1[0])
  {
    var c := s1[0];
    ReplaceOne(c, '<', "&lt;");
    ReplaceOne(c, '>', "&gt;");
    ReplaceOne(c, '"', "&quot;");
    if c == '"' {
      assert '\'' !in "&quot;";
      ReplaceAbsent("&quot;", '\'', "&#39;");
    } else {
      ReplaceOne(c, '\'', "&#39;");
    }
  }

  /** "&lt;" survives the last three passes. */
  lemma SanitizeLt(lt: string)
    requires lt == "&lt;"
    ensures ReplaceChar(ReplaceChar(ReplaceChar(lt, '>', "&gt;"), '"', "&quot;"), '\'', "&#39;") == lt
  {
    assert '>' !in lt && '"' !in lt && '\'' !in lt;
    ReplaceAbsent(lt, '>', "&gt;");
    ReplaceAbsent(lt, '"', "&quot;");
    ReplaceAbsent(lt, '\'', "&#39;");
  }

  /** "&gt;" survives the last two passes. */
  lemma SanitizeGt(gt: string)
    requires gt == "&gt;"
    ensures ReplaceChar(ReplaceChar(gt, '"', "&quot;"), '\'', "&#39;") == gt
  {
    assert '"' !in gt && '\'' !in gt;
    ReplaceAbsent(gt, '"', "&quot;");
    ReplaceAbsent(gt, '\'', "&#39;");
  }

  lemma SanitizeOneChar(c: char)
    ensures SanitizeHtml([c]) == EscapeChar(c)
  {
    if c == '&' {
      SanitizeAmp(c);
    } else {
      SanitizeOther(c);
    }
  }

  /** The chain of five global replaces is the one-pass entity escape. */
  lemma {:induction false} SanitizeIsEscape(s: string)
    ensures SanitizeHtml(s) == EscapeAll(s)
  {
    if s != [] {
      assert s == [s[0]] + s[1..];
      SanitizeAppend([s[0]], s[1..]);
      SanitizeOneChar(s[0]);
      SanitizeIsEscape(s[1..]);
    }
  }

  /** Decoding of the five entities, scanning left to right. */
  function Decode(s: string): string
    decreases |s|
  {
    if s == [] then []
    else if StartsWith(s, "&amp;") then "&" + Decode(s[5..])
    else if StartsWith(s, "&lt;") then "<" + Decode(s[4..])
    else if StartsWith(s, "&gt;") then ">" + Decode(s[4..])
    else if StartsWith(s, "&quot;") then "\"" + Decode(s[6..])
    else if StartsWith(s, "&#39;") then "'" + Decode(s[5..])
    else [s[0]] + Decode(s[1..])
  }

  lemma DecodeStep(c: char, rest: string)
    ensures Decode(EscapeChar(c) + rest) == [c] + Decode(rest)
  {
    var e := EscapeChar(c);
    var s := e + rest;
    assert s[..|e|] == e && s[|e|..] == rest;
    if c == '&' || c == '<' || c == '>' || c == '"' || c == '\'' {
      DecodeEntity(c, rest);
    } else {
      assert s[0] == c && s[1..] == rest;
      assert !StartsWith(s, "&amp;") && !StartsWith(s, "&lt;") && !StartsWith(s, "&gt;");
      assert !StartsWith(s, "&quot;") && !StartsWith(s, "&#39;");
    }
  }

  /** An entity at the front decodes to its character; the entities differ in their second character. */
  lemma DecodeEntity(c: char, rest: string)
    requires c == '&' || c == '<' || c == '>' || c == '"' || c == '\''
    ensures Decode(EscapeChar(c) + rest) == [c] + Decode(rest)
  {
    var e := EscapeChar(c);
    var s := e + rest;
    assert s[..|e|] == e && s[|e|..] == rest && s[1] == e[1];
    if c == '&' {
      assert StartsWith(s, "&amp;");
    } else if c == '<' {
      assert !StartsWith(s, "&amp;") && StartsWith(s, "&lt;");
    } else if c == '>' {
      assert !StartsWith(s, "&amp;") && !StartsWith(s, "&lt;") && StartsWith(s, "&gt;");
    } else if c == '"' {
      assert !StartsWith(s, "&amp;") && !StartsWith(s, "&lt;") && !StartsWith(s, "&gt;");
      assert StartsWith(s, "&quot;");
    } else {
      assert !StartsWith(s, "&amp;") && !StartsWith(s, "&lt;") && !StartsWith(s, "&gt;");
      assert !StartsWith(s, "&quot;") && StartsWith(s, "&#39;");
    }
  }

  lemma {:induction false} DecodeEscapeAll(s: string)
    ensures Decode(EscapeAll(s)) == s
  {
    if s != [] {
      DecodeStep(s[0], EscapeAll(s[1..]));
      DecodeEscapeAll(s[1..]);
    }
  }

  /** Decoding the five entities recovers the escaped text exactly. */
  lemma SanitizeRoundTrip(s: string)
    ensures Decode(SanitizeHtml(s)) == s
  {
    SanitizeIsEscape(s);
    DecodeEscapeAll(s);
  }

  // ---------------------------------------------------------------------
  // Stored row and notification emails

  /** `s || fallback` for an optional string. */
  function OrElse(v: Option<string>, fallback: string): (r: string)
    ensures Truthy(v) ==> r == v.value
    ensures !Truthy(v) ==> r == fallback
  {
    if Truthy(v) then v.value else fallback
  }

  /** The text of a field that the required-field check has already vouched for. */
  function Text(v: Option<string>): string
  {
    if v.Some? then v.value else ""
  }

  function NewRow(d: FormData, id: string, now: int): Row
  {
    Row(id, Text(d.fullName), Text(d.email),
        if Truthy(d.companyName) then d.companyName else None,
        Text(d.serviceInterested), Text(d.budgetRange), Text(d.projectDetails), now)
  }

  /** The company line appears only for a truthy company name. */
  function CompanyEntries(d: FormData): (r: seq<(Label, string)>)
    ensures r != [] <==> Truthy(d.companyName)
  {
    if Truthy(d.companyName) then [(CompanyLine, SanitizeHtml(d.companyName.value))] else []
  }

  function AdminMail(d: FormData, id: string, env: Env): Mail
  {
    Mail(
      "Yara Contact Form <" + OrElse(env.fromEmail, "contact@yaraagency.com") + ">",
      OrElse(env.adminEmail, "hello@yaraagency.com"),
      "New Contact: " + SanitizeHtml(Text(d.fullName)) + " - " + SanitizeHtml(Text(d.serviceInterested)),
      AdminEntries(d, id))
  }

  /** The lines of the admin notice, in order. */
  function AdminEntries(d: FormData, id: string): seq<(Label, string)>
  {
    [(NameLine, SanitizeHtml(Text(d.fullName))), (EmailLine, SanitizeHtml(Text(d.email)))]
    + CompanyEntries(d)
    + [(ServiceLine, SanitizeHtml(Text(d.serviceInterested))),
       (BudgetLine, SanitizeHtml(Text(d.budgetRange))),
       (DetailsLine, ReplaceChar(SanitizeHtml(Text(d.projectDetails)), '\n', "<br>")),
       (SubmissionIdLine, id)]
  }

  function UserMail(d: FormData, env: Env): Mail
  {
    var site := OrElse(env.siteUrl, "https://tgzeogmauexqkvbsittb.supabase.co");
    Mail(
      "Yara <" + OrElse(env.fromEmail, "hello@yaraagency.com") + ">",
      Text(d.email),
      "Thank you for contacting Yara - We'll be in touch soon!",
      UserEntries(d, site))
  }

  /** The lines of the confirmation, in order; `site` is the base of its links. */
  function UserEntries(d: FormData, site: string): seq<(Label, string)>
  {
    [(Greeting, SanitizeHtml(Text(d.fullName))),
     (InquiryLine, SanitizeHtml(Text(d.serviceInterested))),
     (ServiceLine, SanitizeHtml(Text(d.serviceInterested))),
     (BudgetLine, SanitizeHtml(Text(d.budgetRange)))]
    + CompanyEntries(d)
    + [(PortfolioLink, site + "/portfolio"), (BlogLink, site + "/blog"), (ServicesLink, site + "/services")]
  }

  // ---------------------------------------------------------------------
  // The handler

  /** Rows for `email` created at or after `since`. */
  function RecentCount(rows: seq<Row>, email: string, since: int): nat
  {
    |Filter(rows, (r: Row) => r.email == email && r.createdAt >= since)|
  }

  /** The checks on the parsed body, in the handler's order: honeypot, required
    * fields, email pattern. */
  function Screen(d: FormData): (r: Option<Rejection>)
    ensures r.None? <==> !IsSpam(d) && FirstMissing(d, RequiredFields).None? && MatchesEmail(Text(d.email))
  {
    if IsSpam(d) then Some(SpamDetected)
    else match FirstMissing(d, RequiredFields)
      case Some(f) => Some(MissingField(f))
      case None => if MatchesEmail(Text(d.email)) then None else Some(InvalidEmail)
  }

  /** The emails whose sending failed and was logged. */
  function FailedMails(adminMailFails: bool, userMailFails: bool): seq<MailKind>
  {
    (if adminMailFails then [AdminNotice] else []) + (if userMailFails then [UserConfirmation] else [])
  }

  /** The part after the checks: the hourly limit, the insert and the emails. */
  function Submit(rows: seq<Row>, d: FormData, env: Env, now: int, id: string,
                  queryFails: bool, insertFails: bool, adminMailFails: bool, userMailFails: bool): Outcome
  {
    if !queryFails && RecentCount(rows, Text(d.email), now - HourMs) >= MaxPerHour then Reject(TooManySubmissions)
    else if insertFails then Reject(SaveFailed)
    else
      Outcome(Response(200, Success(id), true), Some(NewRow(d, id, now)),
              [AdminMail(d, id, env), UserMail(d, env)], FailedMails(adminMailFails, userMailFails))
  }

  lemma SubmitStores(rows: seq<Row>, d: FormData, env: Env, now: int, id: string,
                     queryFails: bool, insertFails: bool, adminMailFails: bool, userMailFails: bool)
    requires !insertFails && (queryFails || RecentCount(rows, Text(d.email), now - HourMs) < MaxPerHour)
    ensures Submit(rows, d, env, now, id, queryFails, insertFails, adminMailFails, userMailFails)
         == Outcome(Response(200, Success(id), true), Some(NewRow(d, id, now)),
                    [AdminMail(d, id, env), UserMail(d, env)], FailedMails(adminMailFails, userMailFails))
  {
  }

  /** The response and effects of one call, given the stored rows, the clock, the
    * new row's id, and whether the limit query, the insert and each email fail. */
  function Respond(rows: seq<Row>, req: Request, env: Env, now: int, id: string,
                   queryFails: bool, insertFails: bool, adminMailFails: bool, userMailFails: bool): Outcome
  {
    if req.verb == "OPTIONS" then Outcome(Preflight(), None, [], [])
    else if req.verb != "POST" then Reject(MethodNotAllowed)
    else match req.payload
      case Unparsable(reason) => Outcome(Response(500, Crash(reason), true), None, [], [])
      case Parsed(d) =>
        match Screen(d)
        case Some(e) => Reject(e)
        case None => Submit(rows, d, env, now, id, queryFails, insertFails, adminMailFails, userMailFails)
  }

  /** A POST whose body fails a check gets that check's rejection. */
  lemma ScreenedOut(rows: seq<Row>, req: Request, env: Env, now: int, id: string,
                    queryFails: bool, insertFails: bool, adminMailFails: bool, userMailFails: bool)
    requires req.verb == "POST" && req.payload.Parsed? && Screen(req.payload.data).Some?
    ensures Respond(rows, req, env, now, id, queryFails, insertFails, adminMailFails, userMailFails)
      == Reject(Screen(req.payload.data).value)
  {
  }

  /** A POST whose body passes the checks goes on to the limit, the insert and the emails. */
  lemma ScreenedIn(rows: seq<Row>, req: Request, env: Env, now: int, id: string,
                   queryFails: bool, insertFails: bool, adminMailFails: bool, userMailFails: bool)
    requires req.verb == "POST" && req.payload.Parsed? && Screen(req.payload.data).None?
    ensures Respond(rows, req, env, now, id, queryFails, insertFails, adminMailFails, userMailFails)
      == Submit(rows, req.payload.data, env, now, id, queryFails, insertFails, adminMailFails, userMailFails)
  {
  }

  /** The loop over the required fields, stopping at the first missing one. */
  method FindMissing(d: FormData) returns (missing: Option<Field>)
    ensures missing == FirstMissing(d, RequiredFields)
  {
    var i := 0;
    while i < |RequiredFields|
      invariant 0 <= i <= |RequiredFields|
      invariant forall j :: 0 <= j < i ==> !IsMissing(FieldValue(d, RequiredFields[j]))
    {
      var field := RequiredFields[i];
      if IsMissing(FieldValue(d, field)) {
        FirstMissingAt(d, RequiredFields, i);
        return Some(field);
      }
      i := i + 1;
    }
    return None;
  }

  /** The honeypot test, the required fields and the email test, in that order. */
  method CheckBody(d: FormData) returns (rejection: Option<Rejection>)
    ensures rejection == Screen(d)
  {
    if IsSpam(d) {
      return Some(SpamDetected);
    }
    var missing := FindMissing(d);
    if missing.Some? {
      return Some(MissingField(missing.value));
    }
    if !MatchesEmail(Text(d.email)) {
      return Some(InvalidEmail);
    }
    return None;
  }

  /** The `contact_submissions` table the endpoint reads and inserts into. */
  class SubmissionTable {
    var rows: seq<Row>

    constructor(existing: seq<Row>)
      ensures rows == existing
    {
      rows := existing;
    }

    method Handle(req: Request, env: Env, now: int, id: string,
                  queryFails: bool, insertFails: bool, adminMailFails: bool, userMailFails: bool)
      returns (o: Outcome)
      modifies this
      ensures o == Respond(old(rows), req, env, now, id, queryFails, insertFails, adminMailFails, userMailFails)
      ensures rows == old(rows) + (if o.inserted.Some? then [o.inserted.value] else [])
    {
      if req.verb == "OPTIONS" {
        return Outcome(Preflight(), None, [], []);
      }
      if req.verb != "POST" {
        return Reject(MethodNotAllowed);
      }
      if req.payload.Unparsable? {
        return Outcome(Response(500, Crash(req.payload.reason), true), None, [], []);
      }
      var d := req.payload.data;
      var rejection := CheckBody(d);
      if rejection.Some? {
        ScreenedOut(rows, req, env, now, id, queryFails, insertFails, adminMailFails, userMailFails);
        return Reject(rejection.value);
      }
      ScreenedIn(rows, req, env, now, id, queryFails, insertFails, adminMailFails, userMailFails);
      o := SaveAndNotify(d, env, now, id, queryFails, insertFails, adminMailFails, userMailFails);
    }

    /** The hourly limit, the insert and the emails, for a body that passed the checks. */
    method SaveAndNotify(d: FormData, env: Env, now: int, id: string,
                         queryFails: bool, insertFails: bool, adminMailFails: bool, userMailFails: bool)
      returns (o: Outcome)
      modifies this
      ensures o == Submit(old(rows), d, env, now, id, queryFails, insertFails, adminMailFails, userMailFails)
      ensures rows == old(rows) + (if o.inserted.Some? then [o.inserted.value] else [])
    {
      var email := Text(d.email);
      ghost var before := rows;
      if !queryFails {
        var recent := RecentCount(rows, email, now - HourMs);
        if recent >= MaxPerHour {
          return Reject(TooManySubmissions);
        }
      }
      if insertFails {
        return Reject(SaveFailed);
      }
      var row := NewRow(d, id, now);
      rows := rows + [row];
      var failed: seq<MailKind> := [];
      if adminMailFails {
        failed := failed + [AdminNotice];
      }
      if userMailFails {
        failed := failed + [UserConfirmation];
      }
      assert failed == FailedMails(adminMailFails, userMailFails);
      o := Outcome(Response(200, Success(id), true), Some(row), [AdminMail(d, id, env), UserMail(d, env)], failed);
      SubmitStores(before, d, env, now, id, queryFails, insertFails, adminMailFails, userMailFails);
    }
  }

  // ---------------------------------------------------------------------
  // Properties of the chain

  /** Nothing is inserted unless the request is a POST whose body passed every check. */
  lemma ChecksBeforeInsert(rows: seq<Row>, req: Request, env: Env, now: int, id: string,
                           queryFails: bool, insertFails: bool, adminMailFails: bool, userMailFails: bool)
    ensures Respond(rows, req, env, now, id, queryFails, insertFails, adminMailFails, userMailFails).inserted.Some?
      ==> req.verb == "POST" && req.payload.Parsed? && Screen(req.payload.data).None?
  {
    if req.verb == "POST" && req.payload.Parsed? && Screen(req.payload.data).Some? {
      ScreenedOut(rows, req, env, now, id, queryFails, insertFails, adminMailFails, userMailFails);
    }
  }

  /** A submission is stored exactly when every check of the chain passes. */
  lemma StoredIff(rows: seq<Row>, req: Request, env: Env, now: int, id: string,
                  queryFails: bool, insertFails: bool, adminMailFails: bool, userMailFails: bool)
    ensures var o := Respond(rows, req, env, now, id, queryFails, insertFails, adminMailFails, userMailFails);
      o.inserted.Some? <==>
        req.verb == "POST" && req.payload.Parsed? && !IsSpam(req.payload.data)
        && (forall i :: 0 <= i < |RequiredFields| ==> !IsMissing(FieldValue(req.payload.data, RequiredFields[i])))
        && EmailPattern(Text(req.payload.data.email))
        && (queryFails || RecentCount(rows, Text(req.payload.data.email), now - HourMs) < MaxPerHour)
        && !insertFails
  {
    ChecksBeforeInsert(rows, req, env, now, id, queryFails, insertFails, adminMailFails, userMailFails);
    if req.payload.Parsed? {
      MatchesEmailIff(Text(req.payload.data.email));
      if req.verb == "POST" && Screen(req.payload.data).None? {
        ScreenedIn(rows, req, env, now, id, queryFails, insertFails, adminMailFails, userMailFails);
      }
    }
  }

  /** A stored submission answers 200 with its id, stores the body's fields and
    * attempts the admin notice and the user confirmation. */
  lemma StoredAnswersSuccess(rows: seq<Row>, req: Request, env: Env, now: int, id: string,
                             queryFails: bool, insertFails: bool, adminMailFails: bool, userMailFails: bool)
    ensures var o := Respond(rows, req, env, now, id, queryFails, insertFails, adminMailFails, userMailFails);
      o.inserted.Some? ==>
        o.response == Response(200, Success(id), true)
        && o.inserted.value == NewRow(req.payload.data, id, now)
        && o.mails == [AdminMail(req.payload.data, id, env), UserMail(req.payload.data, env)]
        && o.mails[1].recipient == Text(req.payload.data.email)
        && o.failedMails == FailedMails(adminMailFails, userMailFails)
  {
    ChecksBeforeInsert(rows, req, env, now, id, queryFails, insertFails, adminMailFails, userMailFails);
    if req.verb == "POST" && req.payload.Parsed? && Screen(req.payload.data).None? {
      ScreenedIn(rows, req, env, now, id, queryFails, insertFails, adminMailFails, userMailFails);
    }
  }

  /** A failed email is only logged: the response, the stored row and the emails
    * attempted are the same whichever emails fail. */
  lemma MailFailuresOnlyLogged(rows: seq<Row>, req: Request, env: Env, now: int, id: string,
                               queryFails: bool, insertFails: bool, a1: bool, u1: bool, a2: bool, u2: bool)
    ensures var o1 := Respond(rows, req, env, now, id, queryFails, insertFails, a1, u1);
      var o2 := Respond(rows, req, env, now, id, queryFails, insertFails, a2, u2);
      o1.response == o2.response && o1.inserted == o2.inserted && o1.mails == o2.mails
  {
    if req.verb == "POST" && req.payload.Parsed? {
      if Screen(req.payload.data).None? {
        ScreenedIn(rows, req, env, now, id, queryFails, insertFails, a1, u1);
        ScreenedIn(rows, req, env, now, id, queryFails, insertFails, a2, u2);
      } else {
        ScreenedOut(rows, req, env, now, id, queryFails, insertFails, a1, u1);
        ScreenedOut(rows, req, env, now, id, queryFails, insertFails, a2, u2);
      }
    }
  }

  /** OPTIONS is a bare preflight and any other non-POST method is 405, before the body is read. */
  lemma MethodGate(rows: seq<Row>, req: Request, env: Env, now: int, id: string,
                   queryFails: bool, insertFails: bool, adminMailFails: bool, userMailFails: bool)
    requires req.verb != "POST"
    ensures var o := Respond(rows, req, env, now, id, queryFails, insertFails, adminMailFails, userMailFails);
      o.inserted.None? && o.mails == []
      && (req.verb == "OPTIONS" ==> o.response == Response(200, NoBody, false))
      && (req.verb != "OPTIONS" ==> o.response == Response(405, Failure(MethodNotAllowed), true))
  {
  }

  /** A filled honeypot is rejected before any field is looked at. */
  lemma HoneypotFirst(rows: seq<Row>, d: FormData, env: Env, now: int, id: string,
                      queryFails: bool, insertFails: bool, adminMailFails: bool, userMailFails: bool)
    requires IsSpam(d)
    ensures Respond(rows, Request("POST", Parsed(d)), env, now, id, queryFails, insertFails, adminMailFails, userMailFails)
      == Reject(SpamDetected)
  {
  }

  /** The first missing required field, in the fixed order, is the one named. */
  lemma MissingFieldNamed(rows: seq<Row>, d: FormData, env: Env, now: int, id: string,
                          queryFails: bool, insertFails: bool, adminMailFails: bool, userMailFails: bool, i: int)
    requires !IsSpam(d)
    requires 0 <= i < |RequiredFields| && IsMissing(FieldValue(d, RequiredFields[i]))
    requires forall j :: 0 <= j < i ==> !IsMissing(FieldValue(d, RequiredFields[j]))
    ensures Respond(rows, Request("POST", Parsed(d)), env, now, id, queryFails, insertFails, adminMailFails, userMailFails)
      == Reject(MissingField(RequiredFields[i]))
  {
    FirstMissingAt(d, RequiredFields, i);
  }

  /** A failed limit query never blocks; a working one blocks at three recent rows. */
  lemma HourlyLimit(rows: seq<Row>, d: FormData, env: Env, now: int, id: string,
                    queryFails: bool, insertFails: bool, adminMailFails: bool, userMailFails: bool)
    requires !IsSpam(d) && FirstMissing(d, RequiredFields).None? && MatchesEmail(Text(d.email))
    ensures var o := Respond(rows, Request("POST", Parsed(d)), env, now, id, queryFails, insertFails, adminMailFails, userMailFails);
      (o.response.status == 429 <==> !queryFails && RecentCount(rows, Text(d.email), now - HourMs) >= 3)
  {
    ScreenedIn(rows, Request("POST", Parsed(d)), env, now, id, queryFails, insertFails, adminMailFails, userMailFails);
    SubmitStatus(rows, d, env, now, id, queryFails, insertFails, adminMailFails, userMailFails);
  }

  /** After the checks, 429 comes from the limit alone. */
  lemma SubmitStatus(rows: seq<Row>, d: FormData, env: Env, now: int, id: string,
                     queryFails: bool, insertFails: bool, adminMailFails: bool, userMailFails: bool)
    ensures Submit(rows, d, env, now, id, queryFails, insertFails, adminMailFails, userMailFails).response.status == 429
      <==> !queryFails && RecentCount(rows, Text(d.email), now - HourMs) >= 3
  {
  }

  /** With a working query, no address ever has more than three rows in the hour
    * before a successful insert. */
  lemma {:induction false} InsertKeepsHourlyCap(rows: seq<Row>, req: Request, env: Env, now: int, id: string,
                                                insertFails: bool, adminMailFails: bool, userMailFails: bool)
    requires Respond(rows, req, env, now, id, false, insertFails, adminMailFails, userMailFails).inserted.Some?
    ensures var row := Respond(rows, req, env, now, id, false, insertFails, adminMailFails, userMailFails).inserted.value;
      RecentCount(rows + [row], row.email, now - HourMs) <= MaxPerHour
  {
    var row := Respond(rows, req, env, now, id, false, insertFails, adminMailFails, userMailFails).inserted.value;
    InsertedUnderCap(rows, req, env, now, id, insertFails, adminMailFails, userMailFails);
    var keep := (r: Row) => r.email == row.email && r.createdAt >= now - HourMs;
    FilterAppend(rows, [row], keep);
    assert |Filter([row], keep)| <= 1;
  }

  /** A row is inserted only below the hourly count, stamped now, for the body's address. */
  lemma InsertedUnderCap(rows: seq<Row>, req: Request, env: Env, now: int, id: string,
                         insertFails: bool, adminMailFails: bool, userMailFails: bool)
    requires Respond(rows, req, env, now, id, false, insertFails, adminMailFails, userMailFails).inserted.Some?
    ensures var row := Respond(rows, req, env, now, id, false, insertFails, adminMailFails, userMailFails).inserted.value;
      row.createdAt == now && RecentCount(rows, row.email, now - HourMs) < MaxPerHour
  {
    assert req.verb == "POST" && req.payload.Parsed?;
    var d := req.payload.data;
    assert Screen(d).None?;
    ScreenedIn(rows, req, env, now, id, false, insertFails, adminMailFails, userMailFails);
    assert !insertFails && RecentCount(rows, Text(d.email), now - HourMs) < MaxPerHour;
  }

  lemma AdminCompanyLine(d: FormData, id: string, env: Env)
    ensures (exists k :: 0 <= k < |AdminMail(d, id, env).entries| && AdminMail(d, id, env).entries[k].0 == CompanyLine)
      <==> Truthy(d.companyName)
  {
    var admin := AdminEntries(d, id);
    assert AdminMail(d, id, env).entries == admin;
    var c := CompanyEntries(d);
    if Truthy(d.companyName) {
      assert admin[2] == c[0];
    } else {
      assert c == [];
      assert forall k :: 0 <= k < |admin| ==> admin[k].0 != CompanyLine;
    }
  }

  lemma UserCompanyLine(d: FormData, env: Env)
    ensures (exists k :: 0 <= k < |UserMail(d, env).entries| && UserMail(d, env).entries[k].0 == CompanyLine)
      <==> Truthy(d.companyName)
  {
    var user := UserEntries(d, OrElse(env.siteUrl, "https://tgzeogmauexqkvbsittb.supabase.co"));
    assert UserMail(d, env).entries == user;
    var c := CompanyEntries(d);
    if Truthy(d.companyName) {
      assert user[4] == c[0];
    } else {
      assert c == [];
      assert forall k :: 0 <= k < |user| ==> user[k].0 != CompanyLine;
    }
  }

  /** Both emails carry a Company line exactly when the company name is truthy. */
  lemma CompanyLineIff(d: FormData, id: string, env: Env)
    ensures (exists k :: 0 <= k < |AdminMail(d, id, env).entries| && AdminMail(d, id, env).entries[k].0 == CompanyLine)
      <==> Truthy(d.companyName)
    ensures (exists k :: 0 <= k < |UserMail(d, env).entries| && UserMail(d, env).entries[k].0 == CompanyLine)
      <==> Truthy(d.companyName)
  {
    AdminCompanyLine(d, id, env);
    UserCompanyLine(d, env);
  }

  /** An empty or absent company name is stored as null and leaves out the Company
    * line of both emails. */
  lemma EmptyCompanyOmitted(rows: seq<Row>, d: FormData, env: Env, now: int, id: string,
                            queryFails: bool, insertFails: bool, adminMailFails: bool, userMailFails: bool)
    requires d.companyName == None || d.companyName == Some("")
    ensures var o := Respond(rows, Request("POST", Parsed(d)), env, now, id, queryFails, insertFails, adminMailFails, userMailFails);
      o.inserted.Some? ==>
        o.inserted.value.companyName == None && |o.mails| == 2
        && (forall k :: 0 <= k < |o.mails[0].entries| ==> o.mails[0].entries[k].0 != CompanyLine)
        && (forall k :: 0 <= k < |o.mails[1].entries| ==> o.mails[1].entries[k].0 != CompanyLine)
  {
    var req := Request("POST", Parsed(d));
    StoredAnswersSuccess(rows, req, env, now, id, queryFails, insertFails, adminMailFails, userMailFails);
    CompanyLineIff(d, id, env);
  }

  /** No < > " or ' in a text. */
  predicate Inert(t: string)
  {
    '<' !in t && '>' !in t && '"' !in t && '\'' !in t
  }

  /** Every value a visitor typed reaches the admin notice escaped; only the
    * project details (whose line breaks become `<br>`) and the submission id are
    * interpolated otherwise. */
  lemma AdminMailEscaped(d: FormData, id: string, env: Env)
    ensures var m := AdminMail(d, id, env).entries;
      forall k :: 0 <= k < |m| && m[k].0 != DetailsLine && m[k].0 != SubmissionIdLine ==> Inert(m[k].1)
  {
    var m := AdminMail(d, id, env).entries;
    var c := CompanyEntries(d);
    assert forall k :: 0 <= k < |c| ==> Inert(c[k].1);
    assert |m| == 6 + |c|;
    forall k | 0 <= k < |m| && m[k].0 != DetailsLine && m[k].0 != SubmissionIdLine
      ensures Inert(m[k].1)
    {
      if 2 <= k < 2 + |c| {
        assert m[k] == c[k - 2];
      }
    }
  }

  /** Every value a visitor typed reaches the confirmation escaped; only the site
    * links, built from the deployment's own setting, are not. */
  lemma UserMailEscaped(d: FormData, env: Env)
    ensures var m := UserMail(d, env).entries;
      forall k :: 0 <= k < |m| && m[k].0 != PortfolioLink && m[k].0 != BlogLink && m[k].0 != ServicesLink ==> Inert(m[k].1)
  {
    var m := UserMail(d, env).entries;
    var c := CompanyEntries(d);
    assert forall k :: 0 <= k < |c| ==> Inert(c[k].1);
    assert |m| == 7 + |c|;
    forall k | 0 <= k < |m| && m[k].0 != PortfolioLink && m[k].0 != BlogLink && m[k].0 != ServicesLink
      ensures Inert(m[k].1)
    {
      if 4 <= k < 4 + |c| {
        assert m[k] == c[k - 4];
      }
    }
  }
}
