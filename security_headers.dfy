// The Content-Security-Policy builder, the violation buffer, the CSRF token
// check and the HTML sanitizer of src/utils/security-headers.ts.
//
// A directives object is an insertion-ordered list of (camelCase key, value)
// pairs, so that `Object.entries` order and the `{ ...defaults, ...updates }`
// spread are modelled exactly.  The policy text follows the serialized-policy
// shape of Content Security Policy Level 3, section 2.2: directives separated
// by "; ", each a name followed by its space-separated source list.  The
// meta tag the policy is written to is the `applied` field of the manager.

module SecurityHeaders {
  import opened Common

  datatype DirValue = Sources(list: seq<string>) | Flag(on: bool)

  type Directives = seq<(string, DirValue)>

  function DefaultCSP(): Directives
  {
    [ ("defaultSrc", Sources(["'self'"])),
      ("scriptSrc", Sources(["'self'", "'unsafe-inline'", "https://www.googletagmanager.com",
                             "https://www.google-analytics.com", "https://cdnjs.cloudflare.com"])),
      ("styleSrc", Sources(["'self'", "'unsafe-inline'", "https://fonts.googleapis.com"])),
      ("imgSrc", Sources(["'self'", "data:", "blob:", "https:", "https://www.google-analytics.com"])),
      ("connectSrc", Sources(["'self'", "https://tgzeogmauexqkvbsittb.supabase.co",
                              "wss://tgzeogmauexqkvbsittb.supabase.co",
                              "https://www.google-analytics.com", "https://api.github.com"])),
      ("fontSrc", Sources(["'self'", "https://fonts.gstatic.com"])),
      ("mediaSrc", Sources(["'self'", "data:", "blob:"])),
      ("frameSrc", Sources(["'self'", "https://www.youtube.com", "https://player.vimeo.com"])),
      ("objectSrc", Sources(["'none'"])),
      ("childSrc", Sources(["'self'"])),
      ("workerSrc", Sources(["'self'", "blob:"])),
      ("manifestSrc", Sources(["'self'"])),
      ("formAction", Sources(["'self'"])),
      ("frameAncestors", Sources(["'none'"])),
      ("baseUri", Sources(["'self'"])),
      ("upgradeInsecureRequests", Flag(true)),
      ("blockAllMixedContent", Flag(true)) ]
  }

  // ---------------------------------------------------------------------
  // Directive names

  function UpperChar(c: char): char
  {
    if IsAsciiLower(c) then (c as int - 32) as char else c
  }

  /** `name.replace(/([A-Z])/g, '-$1').toLowerCase()`. */
  function Kebab(name: string): (r: string)
    ensures |r| >= |name|
    ensures forall i :: 0 <= i < |r| ==> r[i] == '-' || exists j :: 0 <= j < |name| && r[i] == LowerChar(name[j])
  {
    if name == [] then []
    else
      var head := if IsAsciiUpper(name[0]) then ['-', LowerChar(name[0])] else [LowerChar(name[0])];
      var tail := Kebab(name[1..]);
      assert forall i :: 0 <= i < |tail| ==> tail[i] == '-' || exists j :: 0 <= j < |name| && tail[i] == LowerChar(name[j]) by {
        forall i | 0 <= i < |tail| && tail[i] != '-'
          ensures exists j :: 0 <= j < |name| && tail[i] == LowerChar(name[j])
        {
          var j :| 0 <= j < |name[1..]| && tail[i] == LowerChar(name[1..][j]);
          assert name[j + 1] == name[1..][j];
        }
      }
      head + tail
  }

  /** Reading a kebab-case name back into camelCase. */
  function Camel(k: string): string
  {
    if k == [] then []
    else if k[0] == '-' && |k| >= 2 then [UpperChar(k[1])] + Camel(k[2..])
    else [k[0]] + Camel(k[1..])
  }

  /** A directive key: ASCII letters and digits. */
  predicate IsKey(name: string)
  {
    |name| > 0 && forall i :: 0 <= i < |name| ==> IsAsciiLetter(name[i]) || IsDigit(name[i])
  }

  lemma KebabHead(name: string)
    requires name != []
    ensures Kebab(name) == (if IsAsciiUpper(name[0]) then ['-', LowerChar(name[0])] else [LowerChar(name[0])])
                           + Kebab(name[1..])
  {
  }

  lemma CamelDash(c: char, tail: string)
    ensures Camel(['-', c] + tail) == [UpperChar(c)] + Camel(tail)
  {
    assert (['-', c] + tail)[2..] == tail;
  }

  lemma CamelPlain(c: char, tail: string)
    requires c != '-'
    ensures Camel([c] + tail) == [c] + Camel(tail)
  {
    assert ([c] + tail)[1..] == tail;
  }

  /** The kebab-case conversion loses nothing: the key can be read back. */
  lemma {:induction false} KebabRoundTrip(name: string)
    requires forall i :: 0 <= i < |name| ==> IsAsciiLetter(name[i]) || IsDigit(name[i])
    ensures Camel(Kebab(name)) == name
  {
    if name != [] {
      var c, rest := name[0], name[1..];
      forall i | 0 <= i < |rest| ensures IsAsciiLetter(rest[i]) || IsDigit(rest[i]) {
        assert rest[i] == name[i + 1];
      }
      KebabRoundTrip(rest);
      var tail := Kebab(rest);
      KebabHead(name);
      if IsAsciiUpper(c) {
        CamelDash(LowerChar(c), tail);
        assert UpperChar(LowerChar(c)) == c;
      } else {
        assert LowerChar(c) == c;
        CamelPlain(c, tail);
      }
      assert name == [c] + rest;
    }
  }

  // ---------------------------------------------------------------------
  // Building the policy string

  /** JavaScript truthiness of a directive value: any array is truthy. */
  predicate Truthy(v: DirValue)
  {
    v.Sources? || v.on
  }

  /** The part one directive contributes to the policy. */
  function Part(name: string, v: DirValue): seq<string>
  {
    if name == "upgradeInsecureRequests" && Truthy(v) then ["upgrade-insecure-requests"]
    else if name == "blockAllMixedContent" && Truthy(v) then ["block-all-mixed-content"]
    else if v.Sources? && |v.list| > 0 then [Kebab(name) + " " + Join(v.list, " ")]
    else []
  }

  function Parts(d: Directives): seq<string>
  {
    if d == [] then [] else Part(d[0].0, d[0].1) + Parts(d[1..])
  }

  /** buildCSPString. */
  function BuildCSP(d: Directives): string
  {
    Join(Parts(d), "; ")
  }

  lemma {:induction false} PartsAppend(a: Directives, b: Directives)
    ensures Parts(a + b) == Parts(a) + Parts(b)
  {
    if a == [] {
      assert a + b == b;
    } else {
      assert (a + b)[1..] == a[1..] + b;
      PartsAppend(a[1..], b);
    }
  }

  /** buildCSPString as the source runs it: one pass over the entries, pushing parts. */
  method BuildCSPString(d: Directives) returns (s: string)
    ensures s == BuildCSP(d)
  {
    var parts: seq<string> := [];
    var i := 0;
    while i < |d|
      invariant 0 <= i <= |d|
      invariant parts == Parts(d[..i])
    {
      var name := d[i].0;
      var v := d[i].1;
      PartsAppend(d[..i], [d[i]]);
      assert d[..i + 1] == d[..i] + [d[i]];
      if name == "upgradeInsecureRequests" && Truthy(v) {
        parts := parts + ["upgrade-insecure-requests"];
      } else if name == "blockAllMixedContent" && Truthy(v) {
        parts := parts + ["block-all-mixed-content"];
      } else if v.Sources? && |v.list| > 0 {
        parts := parts + [Kebab(name) + " " + Join(v.list, " ")];
      }
      i := i + 1;
    }
    assert d[..|d|] == d;
    s := Join(parts, "; ");
  }

  /** A false flag contributes nothing, and neither does an empty source list under
    * any other key (under a flag's key any array is truthy and emits the flag). */
  lemma SilentDirectives(name: string, v: DirValue)
    requires (v.Flag? && !v.on)
      || (v.Sources? && v.list == [] && name != "upgradeInsecureRequests" && name != "blockAllMixedContent")
    ensures Part(name, v) == []
  {
  }

  // ---------------------------------------------------------------------
  // Reading a policy back

  /** A directive as read back: its name and its source list. */
  datatype Parsed = Parsed(name: string, values: seq<string>)

  /** A token after trimming: the name runs to the first space, the sources follow,
    * separated by single spaces. */
  function ParseDirective(token: string): Parsed
  {
    var t := Trim(token);
    if ' ' in t then
      var i := IndexOf(t, ' ');
      Parsed(t[..i], Split(t[i + 1..], ' '))
    else Parsed(t, [])
  }

  function ParseTokens(tokens: seq<string>): seq<Parsed>
  {
    if tokens == [] then []
    else (if Trim(tokens[0]) == [] then [] else [ParseDirective(tokens[0])]) + ParseTokens(tokens[1..])
  }

  /** The policy split on ';', blank tokens skipped. */
  function ParsePolicy(policy: string): seq<Parsed>
  {
    ParseTokens(Split(policy, ';'))
  }

  /** What one directive should read back as: the shape Part gives it. */
  function ExpectedPart(name: string, v: DirValue): seq<Parsed>
  {
    if name == "upgradeInsecureRequests" && Truthy(v) then [Parsed("upgrade-insecure-requests", [])]
    else if name == "blockAllMixedContent" && Truthy(v) then [Parsed("block-all-mixed-content", [])]
    else if v.Sources? && |v.list| > 0 then [Parsed(Kebab(name), v.list)]
    else []
  }

  function Expected(d: Directives): seq<Parsed>
  {
    if d == [] then [] else ExpectedPart(d[0].0, d[0].1) + Expected(d[1..])
  }

  /** A source expression: non-empty, without white space or ';'. */
  predicate IsSource(s: string)
  {
    |s| > 0 && forall i :: 0 <= i < |s| ==> !IsJsSpace(s[i]) && s[i] != ';'
  }

  predicate WellFormed(d: Directives)
  {
    forall i :: 0 <= i < |d| ==>
      IsKey(d[i].0) && (d[i].1.Sources? ==> forall j :: 0 <= j < |d[i].1.list| ==> IsSource(d[i].1.list[j]))
  }

  /** A policy part: non-empty, no ';', no white space at either end. */
  predicate IsToken(p: string)
  {
    |p| > 0 && ';' !in p && !IsJsSpace(p[0]) && !IsJsSpace(p[|p| - 1])
  }

  lemma TrimToken(p: string)
    requires IsToken(p)
    ensures Trim(p) == p && Trim(" " + p) == p
  {
    assert TrimStart(p) == p;
    assert (" " + p)[1..] == p;
    assert TrimStart(" " + p) == TrimStart(p);
  }

  lemma KebabChars(name: string)
    requires IsKey(name)
    ensures |Kebab(name)| > 0
    ensures forall i :: 0 <= i < |Kebab(name)| ==> !IsJsSpace(Kebab(name)[i]) && Kebab(name)[i] != ';'
  {
    var k := Kebab(name);
    forall i | 0 <= i < |k|
      ensures !IsJsSpace(k[i]) && k[i] != ';'
    {
      if k[i] != '-' {
        var j :| 0 <= j < |name| && k[i] == LowerChar(name[j]);
      }
    }
  }

  /** A space-separated source list splits back into its sources. */
  lemma SourcesSplitBack(list: seq<string>)
    requires list != []
    requires forall j :: 0 <= j < |list| ==> IsSource(list[j])
    ensures Split(Join(list, " "), ' ') == list
  {
    forall j | 0 <= j < |list| ensures ' ' !in list[j] {
      assert IsSource(list[j]);
    }
    SplitJoin("", list, ' ', "");
    assert [' '] + "" == " ";
    assert "" + Join(list, " ") == Join(list, " ");
    assert "" + list[0] == list[0];
    PrefixedEmpty(list[1..]);
    assert [list[0]] + list[1..] == list;
  }

  lemma PrefixedEmpty(xs: seq<string>)
    ensures Prefixed("", xs) == xs
  {
    forall i | 0 <= i < |xs| ensures Prefixed("", xs)[i] == xs[i] {
      assert "" + xs[i] == xs[i];
    }
  }

  /** A source-list part is a token. */
  lemma SourcePartIsToken(name: string, list: seq<string>)
    requires IsKey(name) && list != []
    requires forall j :: 0 <= j < |list| ==> IsSource(list[j])
    ensures IsToken(Kebab(name) + " " + Join(list, " "))
  {
    KebabChars(name);
    var k := Kebab(name);
    assert ';' !in k && !IsJsSpace(k[0]);
    TokenOfList(k, list);
  }

  /** A token name followed by a space and a non-empty list of sources. */
  lemma TokenOfList(k: string, list: seq<string>)
    requires k != [] && ';' !in k && !IsJsSpace(k[0])
    requires list != [] && forall j :: 0 <= j < |list| ==> IsSource(list[j])
    ensures IsToken(k + " " + Join(list, " "))
  {
    forall j | 0 <= j < |list| ensures ';' !in list[j] {
      assert IsSource(list[j]);
    }
    JoinAvoids(list, " ", ';');
    assert IsSource(list[|list| - 1]);
    JoinLastChar(list, " ");
    TokenOfParts(k, Join(list, " "));
  }

  /** A join whose last piece is non-empty ends with that piece's last character. */
  lemma JoinLastChar(list: seq<string>, sep: string)
    requires list != [] && list[|list| - 1] != []
    ensures var body, last := Join(list, sep), list[|list| - 1];
      body != [] && body[|body| - 1] == last[|last| - 1]
  {
    var body, last := Join(list, sep), list[|list| - 1];
    JoinEnds(list, sep);
    assert body[|body| - |last|..] == last;
    assert body[|body| - 1] == body[|body| - |last|..][|last| - 1];
  }

  /** A name and a body with no ';' and no outer white space, joined by a space. */
  lemma TokenOfParts(k: string, body: string)
    requires k != [] && ';' !in k && !IsJsSpace(k[0])
    requires body != [] && ';' !in body && !IsJsSpace(body[|body| - 1])
    ensures IsToken(k + " " + body)
  {
    var p := k + " " + body;
    assert p[0] == k[0] && p[|p| - 1] == body[|body| - 1];
  }

  /** A token whose name has no space splits at the first space after the name. */
  lemma NameThenBody(k: string, body: string)
    requires ' ' !in k && IsToken(k + " " + body)
    ensures ParseDirective(k + " " + body) == Parsed(k, Split(body, ' '))
  {
    var p := k + " " + body;
    TrimToken(p);
    assert p == k + [' '] + body;
    IndexOfAfter(k, ' ', body);
    assert p[..|k|] == k && p[|k| + 1..] == body;
  }

  /** One source-list directive reads back as its kebab name and its sources. */
  lemma SourcePartReadsBack(name: string, list: seq<string>)
    requires IsKey(name) && list != []
    requires forall j :: 0 <= j < |list| ==> IsSource(list[j])
    ensures IsToken(Kebab(name) + " " + Join(list, " "))
    ensures ParseDirective(Kebab(name) + " " + Join(list, " ")) == Parsed(Kebab(name), list)
  {
    KebabChars(name);
    SourcePartIsToken(name, list);
    NameThenBody(Kebab(name), Join(list, " "));
    SourcesSplitBack(list);
  }

  /** A token without a space reads back as a name with no sources. */
  lemma FlagReadsBack(p: string)
    requires IsToken(p) && ' ' !in p
    ensures ParseDirective(p) == Parsed(p, [])
  {
    TrimToken(p);
  }

  lemma UpgradeIsToken()
    ensures IsToken("upgrade-insecure-requests") && ' ' !in "upgrade-insecure-requests"
  {
  }

  lemma BlockIsToken()
    ensures IsToken("block-all-mixed-content") && ' ' !in "block-all-mixed-content"
  {
  }

  function MapParse(parts: seq<string>): seq<Parsed>
  {
    if parts == [] then [] else [ParseDirective(parts[0])] + MapParse(parts[1..])
  }

  lemma {:induction false} MapParseAppend(a: seq<string>, b: seq<string>)
    ensures MapParse(a + b) == MapParse(a) + MapParse(b)
  {
    if a != [] {
      assert (a + b)[1..] == a[1..] + b;
      MapParseAppend(a[1..], b);
    } else {
      assert a + b == b;
    }
  }

  /** One directive's part is made of tokens that read back as expected. */
  lemma PartReadsBack(name: string, v: DirValue)
    requires IsKey(name) && (v.Sources? ==> forall j :: 0 <= j < |v.list| ==> IsSource(v.list[j]))
    ensures forall i :: 0 <= i < |Part(name, v)| ==> IsToken(Part(name, v)[i])
    ensures MapParse(Part(name, v)) == ExpectedPart(name, v)
  {
    if name == "upgradeInsecureRequests" && Truthy(v) {
      UpgradeIsToken();
      FlagReadsBack("upgrade-insecure-requests");
    } else if name == "blockAllMixedContent" && Truthy(v) {
      BlockIsToken();
      FlagReadsBack("block-all-mixed-content");
    } else if v.Sources? && |v.list| > 0 {
      SourcePartReadsBack(name, v.list);
    }
  }

  /** Each part is a token, and the parts read back as the expected directives. */
  lemma {:induction false} PartsReadBack(d: Directives)
    requires WellFormed(d)
    ensures forall i :: 0 <= i < |Parts(d)| ==> IsToken(Parts(d)[i])
    ensures MapParse(Parts(d)) == Expected(d)
  {
    if d != [] {
      assert WellFormed(d[1..]) by {
        forall i | 0 <= i < |d[1..]| ensures IsKey(d[1..][i].0) { assert d[1..][i] == d[i + 1]; }
      }
      PartsReadBack(d[1..]);
      var here, later := Part(d[0].0, d[0].1), Parts(d[1..]);
      PartReadsBack(d[0].0, d[0].1);
      MapParseAppend(here, later);
      TokensAppend(here, later);
    }
  }

  lemma TokensAppend(a: seq<string>, b: seq<string>)
    requires forall i :: 0 <= i < |a| ==> IsToken(a[i])
    requires forall i :: 0 <= i < |b| ==> IsToken(b[i])
    ensures forall i :: 0 <= i < |a + b| ==> IsToken((a + b)[i])
  {
    forall i | 0 <= i < |a + b| ensures IsToken((a + b)[i]) {
      if i >= |a| {
        assert (a + b)[i] == b[i - |a|];
      }
    }
  }

  lemma {:induction false} TokensReadBack(parts: seq<string>)
    requires forall i :: 0 <= i < |parts| ==> IsToken(parts[i])
    ensures ParseTokens(Prefixed(" ", parts)) == MapParse(parts)
  {
    if parts != [] {
      TrimToken(parts[0]);
      assert ParseDirective(" " + parts[0]) == ParseDirective(parts[0]);
      assert Prefixed(" ", parts)[1..] == Prefixed(" ", parts[1..]);
      TokensReadBack(parts[1..]);
    }
  }

  /** Splitting the joined parts on ';' gives the first part, then the others with
    * the space of the "; " separator in front. */
  lemma PartsSplitBack(parts: seq<string>)
    requires parts != []
    requires forall i :: 0 <= i < |parts| ==> IsToken(parts[i])
    ensures Split(Join(parts, "; "), ';') == [parts[0]] + Prefixed(" ", parts[1..])
  {
    forall i | 0 <= i < |parts| ensures ';' !in parts[i] {
      assert IsToken(parts[i]);
    }
    var sep: string := [';'] + " ";
    assert sep == "; ";
    var body := Join(parts, sep);
    SplitJoin("", parts, ';', " ");
    assert "" + body == body;
    assert "" + parts[0] == parts[0];
  }

  /** An empty policy reads back as no directives. */
  lemma EmptyPolicyReadsBack()
    ensures ParsePolicy("") == []
  {
    assert Split("", ';') == [""];
    assert Trim("") == [];
  }

  /** Reading the built policy back gives every emitted directive, in key order, with
    * its kebab-case name and its sources; false flags and empty lists are absent. */
  lemma PolicyRoundTrip(d: Directives)
    requires WellFormed(d)
    ensures ParsePolicy(BuildCSP(d)) == Expected(d)
  {
    PartsReadBack(d);
    var parts := Parts(d);
    if parts == [] {
      EmptyPolicyReadsBack();
    } else {
      PartsSplitBack(parts);
      var tokens := [parts[0]] + Prefixed(" ", parts[1..]);
      TrimToken(parts[0]);
      assert tokens[1..] == Prefixed(" ", parts[1..]);
      TokensReadBack(parts[1..]);
      assert ParseTokens(tokens) == [ParseDirective(parts[0])] + MapParse(parts[1..]);
    }
  }

  // ---------------------------------------------------------------------
  // Editing directives

  /** `{ ...base, ...updates }`: existing keys keep their place, new ones are appended. */
  function Spread(base: Directives, updates: Directives): Directives
    decreases |updates|
  {
    if updates == [] then base else Spread(Put(base, updates[0].0, updates[0].1), updates[1..])
  }

  /** `arr.filter((s, i) => arr.indexOf(s) === i)`: first occurrences, in order. */
  function Dedupe(xs: seq<string>): (r: seq<string>)
    ensures NoDup(r)
    ensures forall x :: x in r <==> x in xs
  {
    if xs == [] then []
    else
      var init := Dedupe(xs[..|xs| - 1]);
      var x := xs[|xs| - 1];
      assert xs == xs[..|xs| - 1] + [x];
      if x in xs[..|xs| - 1] then init else init + [x]
  }

  lemma {:induction false} DedupeOfDistinct(xs: seq<string>)
    requires NoDup(xs)
    ensures Dedupe(xs) == xs
  {
    if xs != [] {
      DedupeOfDistinct(xs[..|xs| - 1]);
      assert xs[|xs| - 1] !in xs[..|xs| - 1];
      assert xs == xs[..|xs| - 1] + [xs[|xs| - 1]];
    }
  }

  /** Deduplicating a list that starts with distinct items keeps those items first. */
  lemma {:induction false} DedupeKeepsPrefix(a: seq<string>, b: seq<string>)
    requires NoDup(a)
    ensures |Dedupe(a + b)| >= |a| && Dedupe(a + b)[..|a|] == a
  {
    if b == [] {
      assert a + b == a;
      DedupeOfDistinct(a);
    } else {
      var b' := b[..|b| - 1];
      DedupeKeepsPrefix(a, b');
      assert a + b == (a + b') + [b[|b| - 1]];
      assert (a + b)[..|a + b| - 1] == a + b';
    }
  }

  /** The directives addToDirective applies to the manager's defaults `base`: None
    * when the key holds no source list. */
  function AddedDirectives(base: Directives, directive: string, sources: seq<string>): Option<Directives>
  {
    var current := Get(base, directive);
    if current.Some? && current.value.Sources?
    then Some(Put(base, directive, Sources(Dedupe(current.value.list + sources))))
    else None
  }

  function RemainingSources(list: seq<string>, sources: seq<string>): (r: seq<string>)
    ensures forall x :: x in r <==> x in list && x !in sources
  {
    Filter(list, s => s !in sources)
  }

  function RemovedDirectives(base: Directives, directive: string, sources: seq<string>): Option<Directives>
  {
    var current := Get(base, directive);
    if current.Some? && current.value.Sources?
    then Some(Put(base, directive, Sources(RemainingSources(current.value.list, sources))))
    else None
  }

  /** The spread's keys: those of the defaults, then new keys in the order given. */
  lemma {:induction false} SpreadGet(base: Directives, updates: Directives, k: string)
    requires NoDup(Keys(updates))
    ensures Get(Spread(base, updates), k) == if Get(updates, k).Some? then Get(updates, k) else Get(base, k)
    decreases |updates|
  {
    if updates != [] {
      var u := updates[0];
      var rest := updates[1..];
      assert Keys(updates) == [u.0] + Keys(rest);
      assert NoDup(Keys(rest)) by {
        forall i, j | 0 <= i < j < |Keys(rest)| ensures Keys(rest)[i] != Keys(rest)[j] {
          assert Keys(rest)[i] == Keys(updates)[i + 1] && Keys(rest)[j] == Keys(updates)[j + 1];
        }
      }
      SpreadGet(Put(base, u.0, u.1), rest, k);
      PutGet(base, u.0, u.1, k);
      if u.0 == k {
        assert k !in Keys(rest) by {
          forall i | 0 <= i < |Keys(rest)| ensures Keys(rest)[i] != k {
            assert Keys(updates)[i + 1] == Keys(rest)[i];
          }
        }
      }
    }
  }

  /** addToDirective: the default sources come first, then the new ones, each source once;
    * every other directive keeps its default. */
  lemma AddToDirectiveShape(base: Directives, directive: string, sources: seq<string>, list: seq<string>, other: string)
    requires Get(base, directive) == Some(Sources(list))
    ensures AddedDirectives(base, directive, sources).Some?
    ensures Keys(AddedDirectives(base, directive, sources).value) == Keys(base)
    ensures other != directive ==> Get(AddedDirectives(base, directive, sources).value, other) == Get(base, other)
    ensures Get(AddedDirectives(base, directive, sources).value, directive) == Some(Sources(Dedupe(list + sources)))
    ensures NoDup(list) ==> |Dedupe(list + sources)| >= |list| && Dedupe(list + sources)[..|list|] == list
  {
    var merged := Dedupe(list + sources);
    PutGet(base, directive, Sources(merged), other);
    PutGet(base, directive, Sources(merged), directive);
    if NoDup(list) {
      DedupeKeepsPrefix(list, sources);
    }
  }

  /** removeFromDirective: the default sources minus the removed ones, in their order;
    * every other directive keeps its default. */
  lemma RemoveFromDirectiveShape(base: Directives, directive: string, sources: seq<string>, list: seq<string>, other: string)
    requires Get(base, directive) == Some(Sources(list))
    ensures RemovedDirectives(base, directive, sources).Some?
    ensures Keys(RemovedDirectives(base, directive, sources).value) == Keys(base)
    ensures other != directive ==> Get(RemovedDirectives(base, directive, sources).value, other) == Get(base, other)
    ensures Get(RemovedDirectives(base, directive, sources).value, directive) == Some(Sources(RemainingSources(list, sources)))
  {
    var kept := RemainingSources(list, sources);
    PutGet(base, directive, Sources(kept), other);
    PutGet(base, directive, Sources(kept), directive);
  }

  /** Neither edit applies anything when the key is absent or holds a flag. */
  lemma EditNeedsSourceList(base: Directives, directive: string, sources: seq<string>)
    requires Get(base, directive).None? || Get(base, directive).value.Flag?
    ensures AddedDirectives(base, directive, sources).None?
    ensures RemovedDirectives(base, directive, sources).None?
  {
  }

  // ---------------------------------------------------------------------
  // Violations

  datatype Violation = Violation(
    blockedURI: string, violatedDirective: string, originalPolicy: string,
    sourceFile: string, lineNumber: int, columnNumber: int)

  datatype ViolationRecord = ViolationRecord(violation: Violation, timestamp: int)

  const MaxViolations: nat := 100

  /** getViolationSeverity. */
  function ViolationSeverity(violatedDirective: string): (r: Severity)
    ensures r != Critical
    ensures r == High <==> Contains(violatedDirective, "script-src")
    ensures r == Medium <==>
      !Contains(violatedDirective, "script-src")
      && (Contains(violatedDirective, "object-src") || Contains(violatedDirective, "frame-src"))
  {
    if Contains(violatedDirective, "script-src") then High
    else if Contains(violatedDirective, "object-src") || Contains(violatedDirective, "frame-src") then Medium
    else Low
  }

  /** The buffer after one more violation: the newest last, at most the last 100. */
  function AfterViolation(buffer: seq<ViolationRecord>, r: ViolationRecord): seq<ViolationRecord>
  {
    var b := buffer + [r];
    if |b| > MaxViolations then b[|b| - MaxViolations..] else b
  }

  lemma ViolationBufferBounded(buffer: seq<ViolationRecord>, r: ViolationRecord)
    ensures var b := AfterViolation(buffer, r);
      && |b| == Min(|buffer| + 1, MaxViolations)
      && b[|b| - 1] == r
      && b == (buffer + [r])[|buffer| + 1 - |b|..]
  {
  }

  // ---------------------------------------------------------------------
  // CSRF tokens

  /** getCSRFToken: the session-storage token, else the meta tag's; empty strings count as absent. */
  function CsrfToken(session: Option<string>, meta: Option<string>): Option<string>
  {
    if session.Some? && session.value != "" then session
    else if meta.Some? && meta.value != "" then meta
    else None
  }

  /** validateCSRFToken. */
  predicate ValidCsrf(session: Option<string>, meta: Option<string>, submitted: string)
  {
    CsrfToken(session, meta) == Some(submitted)
  }

  lemma CsrfPrecedence(session: Option<string>, meta: Option<string>, submitted: string)
    ensures session.Some? && session.value != "" ==> (ValidCsrf(session, meta, submitted) <==> submitted == session.value)
    ensures (session.None? || session.value == "") ==>
      (ValidCsrf(session, meta, submitted) <==> meta.Some? && meta.value != "" && submitted == meta.value)
    ensures ValidCsrf(session, meta, submitted) ==> submitted != ""
  {
  }

  // ---------------------------------------------------------------------
  // sanitizeHTML: six global, case-insensitive regular-expression removals

  /** A pattern removed by sanitizeHTML:
    *   Element(t)  is  <t[^>]*>.*?<\/t>
    *   Literal(x)  is  the text x
    *   Handler     is  on\w+\s*=
    * Case-insensitivity without the `u` flag folds ASCII letters only. */
  datatype Strip = Element(tag: string) | Literal(text: string) | Handler

  predicate IsWordChar(c: char)
  {
    IsAsciiLetter(c) || IsDigit(c) || c == '_'
  }

  /** The longest run of characters satisfying `p` at the start of `t`. */
  function Run(t: string, p: char -> bool): (r: nat)
    ensures r <= |t|
    ensures forall i :: 0 <= i < r ==> p(t[i])
    ensures r == |t| || !p(t[r])
  {
    if t != [] && p(t[0]) then 1 + Run(t[1..], p) else 0
  }

  /** Whether `t` starts with `x`, ignoring ASCII case (`x` is lower case). */
  predicate StartsCI(t: string, x: string)
  {
    |x| <= |t| && Lower(t[..|x|]) == x
  }

  /** The lazy `.*?<\/tag>` part: the first closing tag at or after `from`, with no
    * line terminator before it. */
  function CloseAt(t: string, from: nat, close: string): (r: Option<nat>)
    ensures r.Some? ==> from <= r.value && r.value + |close| <= |t|
    decreases |t| - from
  {
    if from + |close| > |t| then None
    else if StartsCI(t[from..], close) then Some(from)
    else if IsLineTerminator(t[from]) then None
    else CloseAt(t, from + 1, close)
  }

  /** The length of the match of `p` at the start of `t`, if any. */
  function MatchLen(p: Strip, t: string): (r: Option<nat>)
    ensures r.Some? ==> 0 < r.value <= |t|
  {
    match p
    case Literal(x) =>
      if |x| > 0 && StartsCI(t, x) then Some(|x|) else None
    case Handler =>
      if StartsCI(t, "on") then
        var w := Run(t[2..], IsWordChar);
        var sp := Run(t[2 + w..], IsJsSpace);
        if w > 0 && 2 + w + sp < |t| && t[2 + w + sp] == '=' then Some(2 + w + sp + 1) else None
      else None
    case Element(tag) =>
      var open := "<" + tag;
      var close := "</" + tag + ">";
      if StartsCI(t, open) && '>' in t[|open|..] then
        var gt := |open| + IndexOf(t[|open|..], '>');
        match CloseAt(t, gt + 1, close)
        case Some(k) => Some(k + |close|)
        case None => None
      else None
  }

  /** `s.replace(pattern, '')` with the g flag: scan left to right, drop each match and
    * go on after it. */
  function ReplaceAll(p: Strip, s: string): (r: string)
    ensures |r| <= |s|
    decreases |s|
  {
    if s == [] then []
    else match MatchLen(p, s)
      case Some(n) => ReplaceAll(p, s[n..])
      case None => [s[0]] + ReplaceAll(p, s[1..])
  }

  /** A removal that deletes nothing found nothing to delete. */
  lemma {:induction false} ReplaceAllKeepsLength(p: Strip, s: string)
    requires |ReplaceAll(p, s)| == |s|
    ensures ReplaceAll(p, s) == s
    ensures forall i :: 0 <= i < |s| ==> MatchLen(p, s[i..]).None?
    decreases |s|
  {
    if s != [] {
      if MatchLen(p, s).Some? {
        assert false;
      } else {
        ReplaceAllKeepsLength(p, s[1..]);
        forall i | 0 <= i < |s| ensures MatchLen(p, s[i..]).None? {
          if i > 0 {
            assert s[i..] == s[1..][i - 1..];
          }
        }
      }
    }
  }

  /** With no match anywhere, a removal changes nothing. */
  lemma {:induction false} ReplaceAllNoMatch(p: Strip, s: string)
    requires forall i :: 0 <= i < |s| ==> MatchLen(p, s[i..]).None?
    ensures ReplaceAll(p, s) == s
    decreases |s|
  {
    if s != [] {
      assert s[0..] == s;
      assert MatchLen(p, s).None?;
      forall i | 0 <= i < |s[1..]| ensures MatchLen(p, s[1..][i..]).None? {
        assert s[1..][i..] == s[i + 1..];
      }
      ReplaceAllNoMatch(p, s[1..]);
    }
  }

  /** No match of `p` starts anywhere in `s`. */
  predicate Clean(p: Strip, s: string)
  {
    forall i :: 0 <= i < |s| ==> MatchLen(p, s[i..]).None?
  }

  /** None of the six patterns sanitizeHTML removes occurs in `s`. */
  predicate Sanitized(s: string)
  {
    && Clean(Element("script"), s) && Clean(Element("iframe"), s) && Clean(Literal("javascript:"), s)
    && Clean(Handler, s) && Clean(Element("object"), s) && Clean(Element("embed"), s)
  }

  /** sanitizeHTML as written: each pattern is removed once, in order. */
  function SanitizeHtml(html: string): (r: string)
    ensures |r| <= |html|
  {
    var s1 := ReplaceAll(Element("script"), html);
    var s2 := ReplaceAll(Element("iframe"), s1);
    var s3 := ReplaceAll(Literal("javascript:"), s2);
    var s4 := ReplaceAll(Handler, s3);
    var s5 := ReplaceAll(Element("object"), s4);
    ReplaceAll(Element("embed"), s5)
  }

  /** A text sanitizeHTML does not shorten holds none of the patterns. */
  lemma SanitizeKeepsLength(s: string)
    requires |SanitizeHtml(s)| == |s|
    ensures Sanitized(s)
  {
    var s1 := ReplaceAll(Element("script"), s);
    var s2 := ReplaceAll(Element("iframe"), s1);
    var s3 := ReplaceAll(Literal("javascript:"), s2);
    var s4 := ReplaceAll(Handler, s3);
    var s5 := ReplaceAll(Element("object"), s4);
    assert |s| == |s1| == |s2| == |s3| == |s4| == |s5|;
    ReplaceAllKeepsLength(Element("script"), s);
    ReplaceAllKeepsLength(Element("iframe"), s1);
    ReplaceAllKeepsLength(Literal("javascript:"), s2);
    ReplaceAllKeepsLength(Handler, s3);
    ReplaceAllKeepsLength(Element("object"), s4);
    ReplaceAllKeepsLength(Element("embed"), s5);
  }

  /** A lower-case text with no Literal match anywhere is not found case-insensitively. */
  lemma NoMatchNotContained(s: string, x: string)
    requires |x| > 0
    requires forall i :: 0 <= i < |s| ==> MatchLen(Literal(x), s[i..]).None?
    ensures !ContainsCI(s, x)
  {
    forall i | 0 <= i <= |Lower(s)| - |x|
      ensures !OccursAt(Lower(s), x, i)
    {
      assert MatchLen(Literal(x), s[i..]).None?;
      assert Lower(s[i..][..|x|]) == Lower(s)[i..i + |x|];
    }
  }

  /** A text that differs from `x` at position `j`, ignoring case, does not start with `x`. */
  lemma MismatchAt(t: string, x: string, j: nat)
    requires j < |x| <= |t| && LowerChar(t[j]) != x[j]
    ensures !StartsCI(t, x)
  {
    assert Lower(t[..|x|])[j] == LowerChar(t[j]);
  }

  /** Lower-casing a text without capitals changes nothing. */
  lemma LowerOfLowercase(s: string)
    requires forall i :: 0 <= i < |s| ==> !IsAsciiUpper(s[i])
    ensures Lower(s) == s
  {
  }

  /** An element pattern cannot match a text without '<'. */
  lemma NoAngleNoElement(tag: string, s: string)
    requires '<' !in s
    ensures ReplaceAll(Element(tag), s) == s
  {
    forall i | 0 <= i < |s| ensures MatchLen(Element(tag), s[i..]).None? {
      if |"<" + tag| <= |s[i..]| {
        assert Lower(s[i..][..|"<" + tag|])[0] == LowerChar(s[i]);
      }
    }
    ReplaceAllNoMatch(Element(tag), s);
  }

  /** The handler pattern cannot match a text without the letter o. */
  lemma NoOnNoHandler(s: string)
    requires 'o' !in s && 'O' !in s
    ensures ReplaceAll(Handler, s) == s
  {
    forall i | 0 <= i < |s| ensures MatchLen(Handler, s[i..]).None? {
      if 2 <= |s[i..]| {
        assert Lower(s[i..][..2])[0] == LowerChar(s[i]);
      }
    }
    ReplaceAllNoMatch(Handler, s);
  }

  lemma ReplaceAllSkip(p: Strip, s: string)
    requires s != [] && MatchLen(p, s).None?
    ensures ReplaceAll(p, s) == [s[0]] + ReplaceAll(p, s[1..])
  {
  }

  lemma ReplaceAllDrop(p: Strip, s: string, n: nat)
    requires s != [] && MatchLen(p, s) == Some(n)
    ensures ReplaceAll(p, s) == ReplaceAll(p, s[n..])
  {
  }

  /** A lower-case text matches itself at the start of any text it begins. */
  lemma LiteralMatchesItself(x: string, tail: string)
    requires |x| > 0 && Lower(x) == x
    ensures MatchLen(Literal(x), x + tail) == Some(|x|)
  {
    assert (x + tail)[..|x|] == x;
  }

  lemma JavascriptIsLower(x: string)
    requires x == "javascript:"
    ensures Lower(x) == x
  {
    forall i | 0 <= i < |x| ensures !IsAsciiUpper(x[i]) {
      assert x[i] in "javascript:";
    }
    LowerKeepsLower(x);
  }

  /** No `javascript:` match starts inside the leading "java". */
  lemma NoMatchInJava(a: string, x: string, tail: string)
    requires a == "java" && x == "javascript:"
    ensures forall i :: 0 <= i < |a| ==> MatchLen(Literal(x), (a + (x + tail))[i..]).None?
  {
    var s := a + (x + tail);
    forall i | 0 <= i < |a| ensures MatchLen(Literal(x), s[i..]).None? {
      if i == 0 {
        MismatchAt(s[i..], x, 4);
      } else {
        MismatchAt(s[i..], x, 0);
      }
    }
  }

  /** The `javascript:` pass leaves "script:" alone: it is too short to match. */
  lemma ShortTailKept(x: string, tail: string)
    requires x == "javascript:" && tail == "script:"
    ensures ReplaceAll(Literal(x), tail) == tail
  {
    forall i | 0 <= i < |tail| ensures MatchLen(Literal(x), tail[i..]).None? { }
    ReplaceAllNoMatch(Literal(x), tail);
  }

  /** Four positions without a match are copied through unchanged. */
  lemma SkipFour(p: Strip, s: string)
    requires |s| >= 4
    requires MatchLen(p, s).None? && MatchLen(p, s[1..]).None?
    requires MatchLen(p, s[2..]).None? && MatchLen(p, s[3..]).None?
    ensures ReplaceAll(p, s) == s[..4] + ReplaceAll(p, s[4..])
  {
    ReplaceAllSkip(p, s);
    ReplaceAllSkip(p, s[1..]);
    ReplaceAllSkip(p, s[2..]);
    ReplaceAllSkip(p, s[3..]);
    assert s[1..][1..] == s[2..] && s[2..][1..] == s[3..] && s[3..][1..] == s[4..];
    assert s[..4] == [s[0]] + [s[1..][0]] + [s[2..][0]] + [s[3..][0]];
  }

  /** The leading "java" survives the `javascript:` pass. */
  lemma JavaPrefixKept(a: string, x: string, tail: string)
    requires a == "java" && x == "javascript:"
    ensures ReplaceAll(Literal(x), a + (x + tail)) == a + ReplaceAll(Literal(x), x + tail)
  {
    var s := a + (x + tail);
    NoMatchInJava(a, x, tail);
    assert MatchLen(Literal(x), s[0..]).None?;
    assert s[0..] == s;
    assert MatchLen(Literal(x), s[1..]).None?;
    assert MatchLen(Literal(x), s[2..]).None?;
    assert MatchLen(Literal(x), s[3..]).None?;
    SkipFour(Literal(x), s);
    assert s[..4] == a && s[4..] == x + tail;
  }

  /** The `javascript:` pass over "java" + "javascript:" + "script:": the inner
    * occurrence is removed and the pieces around it join up. */
  lemma LiteralPassJoins(a: string, x: string, tail: string)
    requires a == "java" && x == "javascript:" && tail == "script:"
    ensures ReplaceAll(Literal(x), a + x + tail) == a + tail
  {
    assert a + x + tail == a + (x + tail);
    JavaPrefixKept(a, x, tail);
    JavascriptIsLower(x);
    LiteralMatchesItself(x, tail);
    ReplaceAllDrop(Literal(x), x + tail, |x|);
    assert (x + tail)[|x|..] == tail;
    ShortTailKept(x, tail);
  }

  /** The script and iframe passes find no '<' in the example. */
  lemma ElementPassesKeep(html: string)
    requires html == "javajavascript:script:"
    ensures ReplaceAll(Element("iframe"), ReplaceAll(Element("script"), html)) == html
  {
    NoAngleNoElement("script", html);
    NoAngleNoElement("iframe", html);
  }

  /** The last three passes leave a text without '<' and without the letter o alone. */
  lemma LaterPassesKeep(t: string)
    requires '<' !in t && 'o' !in t && 'O' !in t
    ensures ReplaceAll(Element("embed"), ReplaceAll(Element("object"), ReplaceAll(Handler, t))) == t
  {
    NoOnNoHandler(t);
    NoAngleNoElement("object", t);
    NoAngleNoElement("embed", t);
  }

  lemma JavascriptChars(t: string)
    requires t == "javascript:"
    ensures '<' !in t && 'o' !in t && 'O' !in t
  {
  }

  lemma JavascriptFound(t: string)
    requires t == "javascript:"
    ensures ContainsCI(t, "javascript:")
  {
    JavascriptIsLower(t);
    assert OccursAt(Lower(t), t, 0);
  }

  /** Removing each pattern once can put it back together:
    * "javajavascript:script:" comes out as "javascript:". */
  lemma SinglePassLeavesJavascript(html: string)
    requires html == "javajavascript:script:"
    ensures SanitizeHtml(html) == "javascript:"
    ensures ContainsCI(SanitizeHtml(html), "javascript:")
  {
    var t := "javascript:";
    ElementPassesKeep(html);
    JoinedIsJavascript(html, t);
    LiteralPassJoins("java", t, "script:");
    JavascriptChars(t);
    LaterPassesKeep(t);
    JavascriptFound(t);
  }

  lemma JoinedIsJavascript(html: string, t: string)
    requires html == "javajavascript:script:" && t == "javascript:"
    ensures html == "java" + t + "script:" && "java" + "script:" == t
  {
  }

  /** Sanitizing until nothing changes: the evidently intended behaviour. */
  function SanitizeFully(html: string): (r: string)
    ensures |r| <= |html|
    ensures Sanitized(r)
    decreases |html|
  {
    var once := SanitizeHtml(html);
    if |once| == |html| then
      SanitizeKeepsLength(html);
      html
    else SanitizeFully(once)
  }

  /** The fully sanitized text contains no `javascript:` in any letter case. */
  lemma SanitizeFullyRemovesJavascript(html: string)
    ensures !ContainsCI(SanitizeFully(html), "javascript:")
  {
    NoMatchNotContained(SanitizeFully(html), "javascript:");
  }

  /** A text already free of the patterns is left as it is, by both versions. */
  lemma SanitizedIsFixedPoint(s: string)
    requires Sanitized(s)
    ensures SanitizeHtml(s) == s && SanitizeFully(s) == s
  {
    ReplaceAllNoMatch(Element("script"), s);
    ReplaceAllNoMatch(Element("iframe"), s);
    ReplaceAllNoMatch(Literal("javascript:"), s);
    ReplaceAllNoMatch(Handler, s);
    ReplaceAllNoMatch(Element("object"), s);
    ReplaceAllNoMatch(Element("embed"), s);
  }

  // ---------------------------------------------------------------------
  // The manager object

  /** The policy the manager starts with: the one already on the page; none when the
    * page holds only a report-only policy tag, which also counts as an existing
    * policy; else `d` built. */
  method InitialPolicy(existing: Option<string>, reportOnly: bool, d: Directives) returns (a: Option<string>)
    ensures existing.Some? ==> a == existing
    ensures existing.None? && reportOnly ==> a.None?
    ensures existing.None? && !reportOnly ==> a == Some(BuildCSP(d))
  {
    if existing.Some? || reportOnly {
      a := existing;
    } else {
      var policy := BuildCSPString(d);
      a := Some(policy);
    }
  }

  class SecurityHeadersManager {
    /** The policy every edit starts from. */
    const defaults: Directives := DefaultCSP()
    /** The content of the Content-Security-Policy meta tag, if there is one. */
    var applied: Option<string>
    var violations: seq<ViolationRecord>

    predicate Valid()
      reads this
    {
      |violations| <= MaxViolations
    }

    /** The default policy is applied unless a policy meta tag, enforcing
      * (`existing`) or report-only (`reportOnly`), is already present. */
    constructor (existing: Option<string>, reportOnly: bool)
      ensures Valid()
      ensures defaults == DefaultCSP()
      ensures applied == if existing.Some? || reportOnly then existing else Some(BuildCSP(defaults))
      ensures violations == []
    {
      new;
      applied := InitialPolicy(existing, reportOnly, defaults);
      violations := [];
    }

    /** applyCSP: the policy text written to the meta tag. */
    method ApplyCSP(d: Directives)
      modifies this
      ensures applied == Some(BuildCSP(d))
      ensures violations == old(violations)
    {
      var policy := BuildCSPString(d);
      applied := Some(policy);
    }

    /** updateCSP: the defaults overlaid with the given directives. */
    method UpdateCSP(updates: Directives)
      modifies this
      ensures applied == Some(BuildCSP(Spread(defaults, updates)))
      ensures violations == old(violations)
    {
      ApplyCSP(Spread(defaults, updates));
    }

    method AddToDirective(directive: string, sources: seq<string>)
      modifies this
      ensures applied == (match AddedDirectives(defaults, directive, sources)
                          case Some(d) => Some(BuildCSP(d))
                          case None => old(applied))
      ensures violations == old(violations)
    {
      var current := Get(defaults, directive);
      if current.Some? && current.value.Sources? {
        var merged := Dedupe(current.value.list + sources);
        ApplyCSP(Put(defaults, directive, Sources(merged)));
      }
    }

    method RemoveFromDirective(directive: string, sources: seq<string>)
      modifies this
      ensures applied == (match RemovedDirectives(defaults, directive, sources)
                          case Some(d) => Some(BuildCSP(d))
                          case None => old(applied))
      ensures violations == old(violations)
    {
      var current := Get(defaults, directive);
      if current.Some? && current.value.Sources? {
        var kept := RemainingSources(current.value.list, sources);
        ApplyCSP(Put(defaults, directive, Sources(kept)));
      }
    }

    /** handleCSPViolation: store the violation and report it to the security monitor
      * with the returned severity. */
    method HandleCSPViolation(v: Violation, now: int) returns (severity: Severity)
      requires Valid()
      modifies this
      ensures Valid()
      ensures violations == AfterViolation(old(violations), ViolationRecord(v, now))
      ensures severity == ViolationSeverity(v.violatedDirective)
      ensures applied == old(applied)
    {
      violations := violations + [ViolationRecord(v, now)];
      if |violations| > MaxViolations {
        violations := SliceLast(violations, MaxViolations);
      }
      severity := ViolationSeverity(v.violatedDirective);
    }

    method GetCSPViolations() returns (r: seq<ViolationRecord>)
      ensures r == violations
    {
      r := violations;
    }

    method ClearViolations()
      modifies this
      ensures Valid() && violations == [] && applied == old(applied)
    {
      violations := [];
    }
  }
}
