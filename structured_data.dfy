// The schema.org JSON-LD builder of src/components/StructuredData.tsx.
//
// generateStructuredData switches on the requested type and returns an
// object literal; the component then serialises it into a script tag.  The
// object is modelled as a JSON value whose objects keep their keys in
// literal order; an `undefined` member is the value Undefined (JSON.stringify
// drops it).  The `data` argument gets one datatype per type.

module StructuredData {
  import opened Common

  datatype Json =
    | Undefined
    | JStr(s: string)
    | JInt(i: int)
    | JReal(r: real)
    | JArr(items: seq<Json>)
    | JObj(members: seq<(string, Json)>)

  const Context: string := "https://schema.org"
  const AgencyName: string := "Yara Digital Marketing Agency"
  const SiteUrl: string := "https://yourdomain.com"

  /** An object whose first key is "@type". */
  function Typed(t: string, members: seq<(string, Json)>): Json
  {
    JObj([("@type", JStr(t))] + members)
  }

  /** The object opens with the schema.org context and the type `t`. */
  predicate Declares(j: Json, t: string)
  {
    j.JObj? && |j.members| >= 2 && j.members[0] == ("@context", JStr(Context)) && j.members[1] == ("@type", JStr(t))
  }

  function Document(t: string, members: seq<(string, Json)>): (j: Json)
    ensures Declares(j, t)
  {
    JObj([("@context", JStr(Context)), ("@type", JStr(t))] + members)
  }

  /** A top-level object reads back its context and its type. */
  lemma DocumentTags(j: Json, t: string)
    requires Declares(j, t)
    ensures Member(j, "@context") == Some(JStr(Context)) && Member(j, "@type") == Some(JStr(t))
  {
    assert "@context"[1] != "@type"[1];
    GetAt(j.members, "@type", 1);
  }

  /** An optional property: a missing one is undefined. */
  function Opt(o: Option<string>): (j: Json)
    ensures o.None? <==> j == Undefined
  {
    if o.Some? then JStr(o.value) else Undefined
  }

  /** `x || fallback` on an optional string: missing and empty take the fallback. */
  function OrElse(o: Option<string>, fallback: string): (r: string)
    ensures o.Some? && o.value != "" ==> r == o.value
    ensures o.None? || o.value == "" ==> r == fallback
  {
    if o.Some? && o.value != "" then o.value else fallback
  }

  function Member(j: Json, key: string): Option<Json>
  {
    if j.JObj? then Get(j.members, key) else None
  }

  // ---------------------------------------------------------------------
  // The data each type reads

  datatype OrgData = OrgData(region: Option<string>, phone: Option<string>, email: Option<string>)
  datatype Crumb = Crumb(name: string, url: string)
  datatype Faq = Faq(question: string, answer: string)
  datatype Offer = Offer(name: string, description: string)

  datatype ArticleData = ArticleData(
    title: Option<string>, description: Option<string>, image: Option<string>, author: string,
    publishedDate: Option<string>, modifiedDate: Option<string>, url: Option<string>,
    keywords: Json, category: Option<string>, wordCount: Option<int>)

  datatype ServiceData = ServiceData(
    name: Option<string>, description: Option<string>, serviceType: Option<string>, services: Option<seq<Offer>>)

  /** The type prop with its data; Other is any type outside the six. */
  datatype Request =
    | Organization(org: Option<OrgData>)
    | Website(description: Option<string>)
    | Article(article: ArticleData)
    | Service(service: ServiceData)
    | Breadcrumb(items: seq<Crumb>)
    | FaqPage(questions: seq<Faq>)
    | Other

  // ---------------------------------------------------------------------
  // Organization and website

  /** region, phone and email from the data when truthy, else the agency's defaults. */
  function OrgContact(d: Option<OrgData>): (r: (string, string, string))
    ensures d.None? ==> r == ("California", "+1-555-0123", "hello@yaraagency.com")
    ensures d.Some? ==> r == (OrElse(d.value.region, "California"), OrElse(d.value.phone, "+1-555-0123"),
                              OrElse(d.value.email, "hello@yaraagency.com"))
  {
    if d.None? then ("California", "+1-555-0123", "hello@yaraagency.com")
    else (OrElse(d.value.region, "California"), OrElse(d.value.phone, "+1-555-0123"),
          OrElse(d.value.email, "hello@yaraagency.com"))
  }

  function OrganizationJson(d: Option<OrgData>): (j: Json)
    ensures Declares(j, "Organization")
  {
    var (region, phone, email) := OrgContact(d);
    Document("Organization", [
      ("name", JStr(AgencyName)),
      ("url", JStr(SiteUrl)),
      ("logo", Typed("ImageObject", [("url", JStr(SiteUrl + "/logo.png")), ("width", JInt(300)), ("height", JInt(100))])),
      ("description", JStr("Expert digital marketing, web design, and branding services that transform businesses")),
      ("address", Typed("PostalAddress", [("addressCountry", JStr("US")), ("addressRegion", JStr(region))])),
      ("contactPoint", JArr([Typed("ContactPoint", [
        ("contactType", JStr("customer service")), ("telephone", JStr(phone)),
        ("email", JStr(email)), ("url", JStr(SiteUrl + "/contact"))])])),
      ("sameAs", JArr([JStr("https://twitter.com/yaraagency"), JStr("https://linkedin.com/company/yaraagency"),
                       JStr("https://facebook.com/yaraagency")])),
      ("foundingDate", JStr("2020")),
      ("numberOfEmployees", Typed("QuantitativeValue", [("value", JStr("10-50"))])),
      ("serviceArea", Typed("GeoCircle", [
        ("geoMidpoint", Typed("GeoCoordinates", [("latitude", JReal(37.7749)), ("longitude", JReal(-122.4194))])),
        ("geoRadius", JStr("100 mi"))]))
    ])
  }

  function WebsiteJson(description: Option<string>): (j: Json)
    ensures Declares(j, "WebSite")
  {
    Document("WebSite", [
      ("name", JStr(AgencyName)),
      ("url", JStr(SiteUrl)),
      ("description", JStr(OrElse(description, "Expert digital marketing, web design, and branding services"))),
      ("publisher", Typed("Organization", [("name", JStr(AgencyName))])),
      ("potentialAction", Typed("SearchAction", [
        ("target", Typed("EntryPoint", [("urlTemplate", JStr(SiteUrl + "/search?q={search_term_string}"))])),
        ("query-input", JStr("required name=search_term_string"))]))
    ])
  }

  // ---------------------------------------------------------------------
  // Article

  /** `replace(' ', '-')` with a string pattern: only the first space. */
  function ReplaceFirstSpace(s: string): (r: string)
    ensures |r| == |s|
    ensures ' ' !in s ==> r == s
    ensures ' ' in s ==> r == s[..IndexOf(s, ' ')] + "-" + s[IndexOf(s, ' ') + 1..]
  {
    if ' ' in s then s[..IndexOf(s, ' ')] + "-" + s[IndexOf(s, ' ') + 1..] else s
  }

  /** The author slug as written: lower case, first space only. */
  function AuthorSlugAsWritten(author: string): string
  {
    ReplaceFirstSpace(Lower(author))
  }

  /** A name with two spaces keeps the second one in its author URL. */
  lemma AuthorSlugKeepsSpace(author: string, i: int, j: int)
    requires 0 <= i < j < |author| && author[i] == ' ' && author[j] == ' '
    ensures AuthorSlugAsWritten(author)[j] == ' '
  {
    var l := Lower(author);
    assert l[i] == ' ' && l[j] == ' ';
    assert ' ' in l;
    var k := IndexOf(l, ' ');
    assert AuthorSlugAsWritten(author)[j] == l[k + 1..][j - k - 1];
  }

  /** Every space becomes a hyphen. */
  function HyphenateAll(s: string): (r: string)
    ensures |r| == |s| && ' ' !in r
    ensures forall i :: 0 <= i < |s| ==> r[i] == (if s[i] == ' ' then '-' else s[i])
  {
    seq(|s|, i requires 0 <= i < |s| => if s[i] == ' ' then '-' else s[i])
  }

  /** The author slug as evidently intended: lower case, every space a hyphen. */
  function AuthorSlug(author: string): (r: string)
    ensures ' ' !in r && |r| == |author|
    ensures forall i :: 0 <= i < |author| ==> r[i] == (if author[i] == ' ' then '-' else LowerChar(author[i]))
  {
    HyphenateAll(Lower(author))
  }

  /** For names of at most two words the two readings agree. */
  lemma AuthorSlugAgreesOnTwoWords(author: string)
    requires forall i, j :: 0 <= i < j < |author| && author[i] == ' ' ==> author[j] != ' '
    ensures AuthorSlug(author) == AuthorSlugAsWritten(author)
  {
    var l := Lower(author);
    if ' ' in l {
      var k := IndexOf(l, ' ');
      assert author[k] == ' ';
      var w := AuthorSlugAsWritten(author);
      forall i | 0 <= i < |l|
        ensures AuthorSlug(author)[i] == w[i]
      {
        if i < k {
          assert w[i] == l[..k][i];
          assert l[i] != ' ' by { assert l[i] !in l[..k] || l[..k][i] == l[i]; }
        } else if i == k {
        } else {
          assert w[i] == l[k + 1..][i - k - 1];
          assert author[i] != ' ';
        }
      }
    } else {
      forall i | 0 <= i < |l| ensures AuthorSlug(author)[i] == l[i] {
        assert l[i] in l;
      }
    }
  }

  /** The article's author: the name and the page URL built from a slug. */
  function PersonJson(name: string, slug: string): Json
  {
    Typed("Person", [("name", JStr(name)), ("url", JStr(SiteUrl + "/author/" + slug))])
  }

  /** The members before the author: headline, description and image. */
  function ArticleHead(a: ArticleData): (h: seq<(string, Json)>)
    ensures |h| == 3 && h[0].0 == "headline" && h[1].0 == "description" && h[2].0 == "image"
  {
    [ ("headline", Opt(a.title)),
      ("description", Opt(a.description)),
      ("image", Typed("ImageObject", [("url", Opt(a.image)), ("width", JInt(1200)), ("height", JInt(630))])) ]
  }

  /** The members after the author. */
  function ArticleTail(a: ArticleData): seq<(string, Json)>
  {
    [ ("publisher", Typed("Organization", [
        ("name", JStr(AgencyName)), ("logo", Typed("ImageObject", [("url", JStr(SiteUrl + "/logo.png"))]))])),
      ("datePublished", Opt(a.publishedDate)),
      ("dateModified", ModifiedDate(a)),
      ("mainEntityOfPage", Typed("WebPage", [("@id", Opt(a.url))])),
      ("keywords", a.keywords),
      ("articleSection", Opt(a.category)),
      ("wordCount", JInt(WordCount(a))) ]
  }

  /** The article object around a given author slug. */
  function ArticleWith(a: ArticleData, slug: string): (j: Json)
    ensures Declares(j, "Article")
  {
    Document("Article", ArticleHead(a) + [("author", PersonJson(a.author, slug))] + ArticleTail(a))
  }

  /** The author URL of an article object. */
  function AuthorUrl(j: Json): Option<string>
  {
    var p := Member(j, "author");
    if p.Some? then StrAt(p.value, "url") else None
  }

  /** The author member of an article is the person object. */
  lemma ArticleAuthorMember(a: ArticleData, slug: string)
    ensures Member(ArticleWith(a, slug), "author") == Some(PersonJson(a.author, slug))
  {
    var h := ArticleHead(a);
    var all := ArticleWith(a, slug).members;
    assert all == [("@context", JStr(Context)), ("@type", JStr("Article"))] + h
                  + [("author", PersonJson(a.author, slug))] + ArticleTail(a);
    assert all[5] == ("author", PersonJson(a.author, slug));
    assert all[0].0 == "@context" && all[1].0 == "@type" && all[2] == h[0] && all[3] == h[1] && all[4] == h[2];
    assert "@context"[0] != "author"[0] && "@type"[0] != "author"[0] && "headline"[0] != "author"[0];
    assert "description"[0] != "author"[0] && "image"[0] != "author"[0];
    GetAt(all, "author", 5);
  }

  lemma PersonUrl(name: string, slug: string)
    ensures StrAt(PersonJson(name, slug), "url") == Some(SiteUrl + "/author/" + slug)
  {
    var pms := [("name", JStr(name)), ("url", JStr(SiteUrl + "/author/" + slug))];
    assert |"url"| != |"@type"| && "name"[0] != "url"[0];
    TypedMember("Person", pms, "url", 1);
  }

  /** The author URL reads back from the article, whatever the slug. */
  lemma AuthorUrlRead(a: ArticleData, slug: string)
    ensures AuthorUrl(ArticleWith(a, slug)) == Some(SiteUrl + "/author/" + slug)
  {
    ArticleAuthorMember(a, slug);
    PersonUrl(a.author, slug);
  }

  /** The article as written: the author URL's slug replaces only the first space. */
  function ArticleJson(a: ArticleData): (j: Json)
    ensures Declares(j, "Article")
    ensures AuthorUrl(j) == Some(SiteUrl + "/author/" + AuthorSlugAsWritten(a.author))
  {
    AuthorUrlRead(a, AuthorSlugAsWritten(a.author));
    ArticleWith(a, AuthorSlugAsWritten(a.author))
  }

  /** As written, an author with two spaces in their name gets an author URL
    * that still holds a space. */
  lemma ArticleUrlKeepsSpace(a: ArticleData, i: int, j: int)
    requires 0 <= i < j < |a.author| && a.author[i] == ' ' && a.author[j] == ' '
    ensures AuthorUrl(ArticleJson(a)).Some? && ' ' in AuthorUrl(ArticleJson(a)).value
  {
    AuthorSlugKeepsSpace(a.author, i, j);
    var slug := AuthorSlugAsWritten(a.author);
    assert (SiteUrl + "/author/" + slug)[|SiteUrl + "/author/"| + j] == slug[j];
  }

  /** The article as evidently intended: every space of the name hyphenated. */
  function ArticleJsonCorrected(a: ArticleData): (j: Json)
    ensures Declares(j, "Article")
    ensures AuthorUrl(j) == Some(SiteUrl + "/author/" + AuthorSlug(a.author))
  {
    AuthorUrlRead(a, AuthorSlug(a.author));
    ArticleWith(a, AuthorSlug(a.author))
  }

  /** `modifiedDate || publishedDate`. */
  function ModifiedDate(a: ArticleData): (j: Json)
    ensures a.modifiedDate.Some? && a.modifiedDate.value != "" ==> j == JStr(a.modifiedDate.value)
    ensures a.modifiedDate.None? || a.modifiedDate.value == "" ==> j == Opt(a.publishedDate)
  {
    if a.modifiedDate.Some? && a.modifiedDate.value != "" then JStr(a.modifiedDate.value) else Opt(a.publishedDate)
  }

  /** `wordCount || 1000`: a missing or zero count becomes 1000. */
  function WordCount(a: ArticleData): (n: int)
    ensures a.wordCount.Some? && a.wordCount.value != 0 ==> n == a.wordCount.value
    ensures a.wordCount.None? || a.wordCount.value == 0 ==> n == 1000
  {
    if a.wordCount.Some? && a.wordCount.value != 0 then a.wordCount.value else 1000
  }

  /** With the correction, the author URL has no space in it, whatever the name. */
  lemma ArticleAuthorUrl(a: ArticleData)
    ensures AuthorUrl(ArticleJsonCorrected(a)).Some? && ' ' !in AuthorUrl(ArticleJsonCorrected(a)).value
  {
    assert ' ' !in SiteUrl + "/author/";
  }

  // ---------------------------------------------------------------------
  // Lists: service offers, breadcrumbs and questions

  function OfferJson(o: Offer, index: int): Json
  {
    Typed("Offer", [("itemOffered", Typed("Service", [("name", JStr(o.name)), ("description", JStr(o.description))])),
                    ("position", JInt(index + 1))])
  }

  function Offers(os: seq<Offer>): (r: seq<Json>)
    ensures |r| == |os| && forall i :: 0 <= i < |os| ==> r[i] == OfferJson(os[i], i)
  {
    seq(|os|, i requires 0 <= i < |os| => OfferJson(os[i], i))
  }

  function ServiceJson(s: ServiceData): (j: Json)
    ensures Declares(j, "Service")
  {
    Document("Service", [
      ("name", Opt(s.name)),
      ("description", Opt(s.description)),
      ("provider", Typed("Organization", [("name", JStr(AgencyName))])),
      ("serviceType", Opt(s.serviceType)),
      ("areaServed", Typed("Country", [("name", JStr("United States"))])),
      ("hasOfferCatalog", Typed("OfferCatalog", [
        ("name", JStr("Digital Marketing Services")),
        ("itemListElement", if s.services.Some? then JArr(Offers(s.services.value)) else Undefined)]))
    ])
  }

  function CrumbJson(c: Crumb, index: int): Json
  {
    Typed("ListItem", [("position", JInt(index + 1)), ("name", JStr(c.name)), ("item", JStr(c.url))])
  }

  function Crumbs(cs: seq<Crumb>): (r: seq<Json>)
    ensures |r| == |cs| && forall i :: 0 <= i < |cs| ==> r[i] == CrumbJson(cs[i], i)
  {
    seq(|cs|, i requires 0 <= i < |cs| => CrumbJson(cs[i], i))
  }

  function BreadcrumbJson(cs: seq<Crumb>): (j: Json)
    ensures Declares(j, "BreadcrumbList")
  {
    Document("BreadcrumbList", [("itemListElement", JArr(Crumbs(cs)))])
  }

  function AnswerJson(answer: string): Json
  {
    Typed("Answer", [("text", JStr(answer))])
  }

  function FaqJson(f: Faq): Json
  {
    Typed("Question", [("name", JStr(f.question)), ("acceptedAnswer", AnswerJson(f.answer))])
  }

  function Questions(fs: seq<Faq>): (r: seq<Json>)
    ensures |r| == |fs| && forall i :: 0 <= i < |fs| ==> r[i] == FaqJson(fs[i])
  {
    seq(|fs|, i requires 0 <= i < |fs| => FaqJson(fs[i]))
  }

  function FaqPageJson(fs: seq<Faq>): (j: Json)
    ensures Declares(j, "FAQPage")
  {
    Document("FAQPage", [("mainEntity", JArr(Questions(fs)))])
  }

  /** The schema.org type each request's object declares. */
  function TypeName(r: Request): string
  {
    match r
    case Organization(_) => "Organization"
    case Website(_) => "WebSite"
    case Article(_) => "Article"
    case Service(_) => "Service"
    case Breadcrumb(_) => "BreadcrumbList"
    case FaqPage(_) => "FAQPage"
    case Other => ""
  }

  /** generateStructuredData: one object per type (the lemmas below state what
    * each declares); any type outside the six gives the empty object. */
  function GenerateStructuredData(r: Request): (j: Json)
    ensures r.Other? ==> j == JObj([])
  {
    match r
    case Organization(d) => OrganizationJson(d)
    case Website(d) => WebsiteJson(d)
    case Article(a) => ArticleJson(a)
    case Service(s) => ServiceJson(s)
    case Breadcrumb(items) => BreadcrumbJson(items)
    case FaqPage(questions) => FaqPageJson(questions)
    case Other => JObj([])
  }

  // Each of the six types gives an object that opens with the schema.org
  // context and that type.

  lemma GeneratedOrganization(d: Option<OrgData>)
    ensures Declares(GenerateStructuredData(Organization(d)), "Organization")
  {
  }

  lemma GeneratedWebsite(d: Option<string>)
    ensures Declares(GenerateStructuredData(Website(d)), "WebSite")
  {
  }

  /** An article's object also carries the as-written author URL. */
  lemma GeneratedArticle(a: ArticleData)
    ensures Declares(GenerateStructuredData(Article(a)), "Article")
    ensures AuthorUrl(GenerateStructuredData(Article(a))) == Some(SiteUrl + "/author/" + AuthorSlugAsWritten(a.author))
  {
  }

  lemma GeneratedService(s: ServiceData)
    ensures Declares(GenerateStructuredData(Service(s)), "Service")
  {
  }

  lemma GeneratedBreadcrumb(items: seq<Crumb>)
    ensures Declares(GenerateStructuredData(Breadcrumb(items)), "BreadcrumbList")
  {
  }

  lemma GeneratedFaqPage(questions: seq<Faq>)
    ensures Declares(GenerateStructuredData(FaqPage(questions)), "FAQPage")
  {
  }

  /** Whatever the type, the object reads back the schema.org context and the type. */
  lemma GeneratedDeclaresType(r: Request)
    requires !r.Other?
    ensures Member(GenerateStructuredData(r), "@context") == Some(JStr(Context))
    ensures Member(GenerateStructuredData(r), "@type") == Some(JStr(TypeName(r)))
  {
    match r {
      case Organization(d) => GeneratedOrganization(d);
      case Website(d) => GeneratedWebsite(d);
      case Article(a) => GeneratedArticle(a);
      case Service(s) => GeneratedService(s);
      case Breadcrumb(items) => GeneratedBreadcrumb(items);
      case FaqPage(questions) => GeneratedFaqPage(questions);
    }
    DocumentTags(GenerateStructuredData(r), TypeName(r));
  }

  // ---------------------------------------------------------------------
  // Reading the lists back

  /** The string under `key`, if the value is an object holding one. */
  function StrAt(j: Json, key: string): Option<string>
  {
    var m := Member(j, key);
    if m.Some? && m.value.JStr? then Some(m.value.s) else None
  }

  function IntAt(j: Json, key: string): Option<int>
  {
    var m := Member(j, key);
    if m.Some? && m.value.JInt? then Some(m.value.i) else None
  }

  /** A key other than "@type" is found among the members after the type tag. */
  lemma TypedMember(t: string, ms: seq<(string, Json)>, k: string, i: nat)
    requires k != "@type" && i < |ms| && ms[i].0 == k
    requires forall j :: 0 <= j < i ==> ms[j].0 != k
    ensures Member(Typed(t, ms), k) == Some(ms[i].1)
  {
    var all := [("@type", JStr(t))] + ms;
    assert all[i + 1] == ms[i];
    GetAt(all, k, i + 1);
  }

  function ReadCrumb(j: Json): Option<Crumb>
  {
    var name, url := StrAt(j, "name"), StrAt(j, "item");
    if name.Some? && url.Some? then Some(Crumb(name.value, url.value)) else None
  }

  lemma CrumbNameRead(c: Crumb, index: int)
    ensures StrAt(CrumbJson(c, index), "name") == Some(c.name)
  {
    var ms := [("position", JInt(index + 1)), ("name", JStr(c.name)), ("item", JStr(c.url))];
    assert CrumbJson(c, index) == Typed("ListItem", ms);
    assert |"name"| != |"@type"| && "position"[0] != "name"[0];
    TypedMember("ListItem", ms, "name", 1);
  }

  lemma CrumbItemRead(c: Crumb, index: int)
    ensures StrAt(CrumbJson(c, index), "item") == Some(c.url)
  {
    var ms := [("position", JInt(index + 1)), ("name", JStr(c.name)), ("item", JStr(c.url))];
    assert CrumbJson(c, index) == Typed("ListItem", ms);
    assert |"item"| != |"@type"| && "position"[0] != "item"[0] && "name"[0] != "item"[0];
    TypedMember("ListItem", ms, "item", 2);
  }

  lemma CrumbReads(c: Crumb, index: int)
    ensures ReadCrumb(CrumbJson(c, index)) == Some(c)
  {
    CrumbNameRead(c, index);
    CrumbItemRead(c, index);
  }

  lemma CrumbPosition(c: Crumb, index: int)
    ensures IntAt(CrumbJson(c, index), "position") == Some(index + 1)
  {
    GetAt(CrumbJson(c, index).members, "position", 1);
  }

  /** A breadcrumb list reads back as the input items, in order, at positions 1..n. */
  lemma BreadcrumbRoundTrip(cs: seq<Crumb>)
    ensures Member(BreadcrumbJson(cs), "itemListElement") == Some(JArr(Crumbs(cs)))
    ensures forall i :: 0 <= i < |cs| ==>
      ReadCrumb(Crumbs(cs)[i]) == Some(cs[i]) && IntAt(Crumbs(cs)[i], "position") == Some(i + 1)
  {
    GetAt(BreadcrumbJson(cs).members, "itemListElement", 2);
    forall i | 0 <= i < |cs|
      ensures ReadCrumb(Crumbs(cs)[i]) == Some(cs[i]) && IntAt(Crumbs(cs)[i], "position") == Some(i + 1)
    {
      CrumbReads(cs[i], i);
      CrumbPosition(cs[i], i);
    }
  }

  function ReadFaq(j: Json): Option<Faq>
  {
    var q := StrAt(j, "name");
    var answer := Member(j, "acceptedAnswer");
    var text := if answer.Some? then StrAt(answer.value, "text") else None;
    if q.Some? && text.Some? then Some(Faq(q.value, text.value)) else None
  }

  lemma FaqQuestionRead(f: Faq)
    ensures StrAt(FaqJson(f), "name") == Some(f.question)
  {
    var ms := [("name", JStr(f.question)), ("acceptedAnswer", AnswerJson(f.answer))];
    assert FaqJson(f) == Typed("Question", ms);
    assert |"name"| != |"@type"|;
    TypedMember("Question", ms, "name", 0);
  }

  lemma FaqAnswerRead(f: Faq)
    ensures Member(FaqJson(f), "acceptedAnswer") == Some(AnswerJson(f.answer))
    ensures StrAt(AnswerJson(f.answer), "text") == Some(f.answer)
  {
    var ms := [("name", JStr(f.question)), ("acceptedAnswer", AnswerJson(f.answer))];
    assert FaqJson(f) == Typed("Question", ms);
    assert |"acceptedAnswer"| != |"@type"| && "name"[0] != "acceptedAnswer"[0];
    TypedMember("Question", ms, "acceptedAnswer", 1);
    assert |"text"| != |"@type"|;
    TypedMember("Answer", [("text", JStr(f.answer))], "text", 0);
  }

  lemma FaqReads(f: Faq)
    ensures ReadFaq(FaqJson(f)) == Some(f)
  {
    FaqQuestionRead(f);
    FaqAnswerRead(f);
  }

  /** An FAQ page has one question per input question, in order, with its answer. */
  lemma FaqRoundTrip(fs: seq<Faq>)
    ensures Member(FaqPageJson(fs), "mainEntity") == Some(JArr(Questions(fs)))
    ensures forall i :: 0 <= i < |fs| ==> ReadFaq(Questions(fs)[i]) == Some(fs[i])
  {
    GetAt(FaqPageJson(fs).members, "mainEntity", 2);
    forall i | 0 <= i < |fs| ensures ReadFaq(Questions(fs)[i]) == Some(fs[i]) {
      FaqReads(fs[i]);
    }
  }

  /** Service offers are numbered 1..n in input order. */
  lemma OfferPositions(os: seq<Offer>)
    ensures forall i :: 0 <= i < |os| ==> IntAt(Offers(os)[i], "position") == Some(i + 1)
  {
    forall i | 0 <= i < |os| ensures IntAt(Offers(os)[i], "position") == Some(i + 1) {
      GetAt(OfferJson(os[i], i).members, "position", 2);
    }
  }

  /** An empty phone number falls back to the agency's, and an unknown type
    * gives the empty object. */
  lemma DefaultsFacts(d: Option<OrgData>)
    ensures GenerateStructuredData(Other) == JObj([])
    ensures d.Some? && d.value.phone == Some("") ==> OrgContact(d).1 == "+1-555-0123"
  {
  }
}
