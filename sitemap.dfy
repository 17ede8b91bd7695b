// The sitemap and robots.txt generators of src/utils/sitemap.ts.
//
// Each sitemap is first built as its list of <url> entries (sitemaps.org
// protocol 0.9, with the Google image extension for blog posts) and then
// rendered to the exact text the generators return.  Today's date and each
// post's update date arrive as ISO-8601 timestamps; the day is the part
// before the "T".

module Sitemap {
  import opened Common

  const BaseUrl: string := "https://yourdomain.com"

  datatype Image = Image(loc: string, title: string)

  datatype Entry = Entry(loc: string, lastmod: string, changefreq: string, priority: string, image: Option<Image>)

  datatype Page = Page(path: string, priority: string, changefreq: string)

  /** A blog post row as the generator reads it: featured_image may be null. */
  datatype Post = Post(slug: string, updatedAt: string, featuredImage: Option<string>, title: string)

  /** `toISOString().split('T')[0]`. */
  function Day(iso: string): (d: string)
    ensures StartsWith(iso, d) && 'T' !in d
  {
    if 'T' in iso then iso[..IndexOf(iso, 'T')] else iso
  }

  const StaticPages: seq<Page> := [
    Page("", "1.0", "weekly"),
    Page("/about", "0.8", "monthly"),
    Page("/services", "0.9", "monthly"),
    Page("/portfolio", "0.8", "weekly"),
    Page("/contact", "0.7", "monthly"),
    Page("/blog", "0.8", "daily")
  ]

  function StaticEntries(now: string): (r: seq<Entry>)
    ensures |r| == |StaticPages|
    ensures forall i :: 0 <= i < |r| ==>
      r[i] == Entry(BaseUrl + StaticPages[i].path, Day(now), StaticPages[i].changefreq, StaticPages[i].priority, None)
  {
    seq(|StaticPages|, i requires 0 <= i < |StaticPages| =>
      Entry(BaseUrl + StaticPages[i].path, Day(now), StaticPages[i].changefreq, StaticPages[i].priority, None))
  }

  /** `post.featured_image ? … : ''`: only a non-empty image gets a block. */
  function PostImage(p: Post): (r: Option<Image>)
    ensures r.Some? <==> p.featuredImage.Some? && p.featuredImage.value != ""
    ensures r.Some? ==> r.value == Image(p.featuredImage.value, p.title)
  {
    if p.featuredImage.Some? && p.featuredImage.value != "" then Some(Image(p.featuredImage.value, p.title)) else None
  }

  function PostEntry(p: Post): Entry
  {
    Entry(BaseUrl + "/blog/" + p.slug, Day(p.updatedAt), "weekly", "0.6", PostImage(p))
  }

  function PostEntries(posts: seq<Post>): (r: seq<Entry>)
    ensures |r| == |posts|
    ensures forall i :: 0 <= i < |posts| ==> r[i] == PostEntry(posts[i])
  {
    seq(|posts|, i requires 0 <= i < |posts| => PostEntry(posts[i]))
  }

  /** Each post gets one entry, in input order, at baseUrl/blog/slug, weekly
    * at priority 0.6, with an image block exactly when it has a featured
    * image, whose title is the post's title as given. */
  lemma PostEntriesFacts(posts: seq<Post>, i: int)
    requires 0 <= i < |posts|
    ensures var e := PostEntries(posts)[i];
      StartsWith(e.loc, BaseUrl + "/blog/") && e.loc[|BaseUrl + "/blog/"|..] == posts[i].slug
      && e.changefreq == "weekly" && e.priority == "0.6"
      && e.lastmod == Day(posts[i].updatedAt)
      && (e.image.Some? <==> posts[i].featuredImage.Some? && posts[i].featuredImage.value != "")
      && (e.image.Some? ==> e.image.value.title == posts[i].title)
  {
  }

  /** The static sitemap's locations are the base URL followed by each page's path. */
  lemma StaticEntriesFacts(now: string)
    ensures forall i :: 0 <= i < |StaticPages| ==>
      StartsWith(StaticEntries(now)[i].loc, BaseUrl)
      && StaticEntries(now)[i].loc[|BaseUrl|..] == StaticPages[i].path
      && StaticEntries(now)[i].image.None?
    ensures StaticEntries(now)[0].loc == BaseUrl && StaticEntries(now)[0].priority == "1.0"
  {
    forall i | 0 <= i < |StaticPages|
      ensures StartsWith(StaticEntries(now)[i].loc, BaseUrl)
    {
      assert StaticEntries(now)[i].loc[..|BaseUrl|] == BaseUrl;
    }
  }

  // ---------------------------------------------------------------------
  // Rendering

  const XmlHead: string :=
    "<?xml version=\"1.0\" encoding=\"UTF-8\"?>\n<urlset xmlns=\"http://www.sitemaps.org/schemas/sitemap/0.9\"\n        xmlns:image=\"http://www.google.com/schemas/sitemap-image/1.1\">\n"
  const XmlTail: string := "\n</urlset>"

  function ImageXml(img: Option<Image>): string
  {
    if img.None? then ""
    else "<image:image>\n      <image:loc>" + img.value.loc + "</image:loc>\n      <image:title>" + img.value.title
         + "</image:title>\n    </image:image>"
  }

  /** A static entry: loc, lastmod, changefreq and priority on their own lines. */
  function StaticXml(e: Entry): (x: string)
    ensures StartsWith(x, "  <url>\n    <loc>" + e.loc + "</loc>") && EndsWith(x, "</url>")
  {
    var open := "  <url>\n    <loc>" + e.loc + "</loc>";
    var x := open + "\n    <lastmod>" + e.lastmod + "</lastmod>\n    <changefreq>" + e.changefreq
             + "</changefreq>\n    <priority>" + e.priority + "</priority>\n  </url>";
    assert x[..|open|] == open;
    x
  }

  /** A blog entry: the same four lines, then a line holding the image block or nothing. */
  function PostXml(e: Entry): (x: string)
    ensures StartsWith(x, "  <url>\n    <loc>" + e.loc + "</loc>") && EndsWith(x, "</url>")
  {
    var open := "  <url>\n    <loc>" + e.loc + "</loc>";
    var x := open + "\n    <lastmod>" + e.lastmod + "</lastmod>\n    <changefreq>" + e.changefreq
             + "</changefreq>\n    <priority>" + e.priority + "</priority>\n    " + ImageXml(e.image) + "\n  </url>";
    assert x[..|open|] == open;
    x
  }

  function Urlset(items: seq<string>): (x: string)
    ensures StartsWith(x, XmlHead) && EndsWith(x, XmlTail)
  {
    var body := Join(items, "\n");
    var x := XmlHead + body + XmlTail;
    assert x[..|XmlHead|] == XmlHead;
    assert x[|x| - |XmlTail|..] == XmlTail;
    x
  }

  function MapStatic(es: seq<Entry>): (r: seq<string>)
    ensures |r| == |es| && forall i :: 0 <= i < |es| ==> r[i] == StaticXml(es[i])
  {
    seq(|es|, i requires 0 <= i < |es| => StaticXml(es[i]))
  }

  function MapPosts(es: seq<Entry>): (r: seq<string>)
    ensures |r| == |es| && forall i :: 0 <= i < |es| ==> r[i] == PostXml(es[i])
  {
    seq(|es|, i requires 0 <= i < |es| => PostXml(es[i]))
  }

  function GenerateSitemap(now: string): (x: string)
    ensures StartsWith(x, XmlHead) && EndsWith(x, XmlTail)
  {
    Urlset(MapStatic(StaticEntries(now)))
  }

  /** No list, or an empty one, gives the empty string; otherwise a urlset. */
  function GenerateBlogSitemap(posts: Option<seq<Post>>): (x: string)
    ensures posts.None? || posts.value == [] <==> x == ""
    ensures x != "" ==> StartsWith(x, XmlHead) && EndsWith(x, XmlTail)
  {
    if posts.None? || |posts.value| == 0 then ""
    else Urlset(MapPosts(PostEntries(posts.value)))
  }

  /** The urlset text opens with the first entry and closes with the last. */
  lemma UrlsetEnds(items: seq<string>)
    requires items != []
    ensures StartsWith(Urlset(items), XmlHead + items[0])
    ensures EndsWith(Urlset(items), items[|items| - 1] + XmlTail)
  {
    JoinEnds(items, "\n");
    var body := Join(items, "\n");
    var x := XmlHead + body + XmlTail;
    assert body[..|items[0]|] == items[0];
    assert x[..|XmlHead + items[0]|] == XmlHead + items[0];
    var last := items[|items| - 1];
    assert body[|body| - |last|..] == last;
    assert x[|x| - |last + XmlTail|..] == last + XmlTail;
  }

  /** The home page opens the static sitemap and the blog page closes it. */
  lemma SitemapOrder(now: string)
    ensures StartsWith(GenerateSitemap(now), XmlHead + StaticXml(StaticEntries(now)[0]))
    ensures EndsWith(GenerateSitemap(now), StaticXml(StaticEntries(now)[5]) + XmlTail)
  {
    UrlsetEnds(MapStatic(StaticEntries(now)));
  }

  // ---------------------------------------------------------------------
  // robots.txt

  datatype Line =
    | Agent(name: string) | Allow(path: string) | Disallow(path: string)
    | SitemapAt(url: string) | CrawlDelay(seconds: nat) | Comment(text: string) | Blank

  /** A `User-agent` line and the lines under it, up to the next one. */
  datatype Section = Section(agent: string, rules: seq<Line>)

  function LineText(l: Line): string
  {
    match l
    case Agent(n) => "User-agent: " + n
    case Allow(p) => "Allow: " + p
    case Disallow(p) => "Disallow: " + p
    case SitemapAt(u) => "Sitemap: " + u
    case CrawlDelay(s) => "Crawl-delay: " + NatToString(s)
    case Comment(t) => "# " + t
    case Blank => ""
  }

  const RobotsSections: seq<Section> := [
    Section("*", [
      Allow("/"), Blank,
      Comment("Sitemap location"),
      SitemapAt("https://yourdomain.com/sitemap.xml"),
      SitemapAt("https://yourdomain.com/blog-sitemap.xml"), Blank,
      Comment("Disallow admin/private areas"),
      Disallow("/admin/"), Disallow("/api/"), Disallow("/*.json$"), Blank,
      Comment("Crawl-delay for respectful crawling"),
      CrawlDelay(1), Blank,
      Comment("Specific rules for search engines")]),
    Section("Googlebot", [Allow("/"), CrawlDelay(0), Blank]),
    Section("Bingbot", [Allow("/"), CrawlDelay(1), Blank]),
    Section("Slurp", [Allow("/"), CrawlDelay(1), Blank, Comment("Block AI training bots (optional)")]),
    Section("ChatGPT-User", [Disallow("/"), Blank]),
    Section("GPTBot", [Disallow("/"), Blank]),
    Section("Claude-Web", [Disallow("/")])
  ]

  /** The file as a list of lines, each section's agent line before its rules. */
  function Lines(ss: seq<Section>): (r: seq<Line>)
  {
    if ss == [] then [] else [Agent(ss[0].agent)] + ss[0].rules + Lines(ss[1..])
  }

  function RenderLines(ls: seq<Line>): string
  {
    Join(seq(|ls|, i requires 0 <= i < |ls| => LineText(ls[i])), "\n")
  }

  function GenerateRobotsTxt(): string
  {
    RenderLines(Lines(RobotsSections))
  }

  /** How a crawler reads the file: the lines after the first `User-agent`
    * line naming it, up to the next `User-agent` line. */
  function GroupOf(ls: seq<Line>, agent: string): (r: seq<Line>)
    ensures forall l :: l in r ==> l in ls && !l.Agent?
  {
    if ls == [] then []
    else if ls[0] == Agent(agent) then GroupBody(ls[1..])
    else GroupOf(ls[1..], agent)
  }

  function GroupBody(ls: seq<Line>): (r: seq<Line>)
    ensures |r| <= |ls| && r == ls[..|r|]
    ensures forall l :: l in r ==> !l.Agent?
  {
    if ls == [] || ls[0].Agent? then [] else [ls[0]] + GroupBody(ls[1..])
  }

  /** The rules of the first section for `agent`, if any. */
  function RulesFor(ss: seq<Section>, agent: string): seq<Line>
  {
    if ss == [] then [] else if ss[0].agent == agent then ss[0].rules else RulesFor(ss[1..], agent)
  }

  predicate NoAgentRules(ss: seq<Section>)
  {
    forall i, l :: 0 <= i < |ss| && l in ss[i].rules ==> !l.Agent?
  }

  lemma {:induction false} GroupBodyOfRules(rules: seq<Line>, rest: seq<Line>)
    requires forall l :: l in rules ==> !l.Agent?
    requires rest == [] || rest[0].Agent?
    ensures GroupBody(rules + rest) == rules
    decreases |rules|
  {
    if rules == [] {
      assert rules + rest == rest;
    } else {
      assert (rules + rest)[1..] == rules[1..] + rest;
      GroupBodyOfRules(rules[1..], rest);
    }
  }

  lemma LinesStart(ss: seq<Section>)
    ensures Lines(ss) == [] || Lines(ss)[0].Agent?
  {
  }

  /** Read line by line, the file gives every crawler the rules of its own
    * section: the sections are a faithful structure of the text. */
  lemma {:induction false} GroupOfLines(ss: seq<Section>, agent: string)
    requires NoAgentRules(ss)
    ensures GroupOf(Lines(ss), agent) == RulesFor(ss, agent)
    decreases |ss|
  {
    if ss != [] {
      var ls := Lines(ss);
      var tail := Lines(ss[1..]);
      assert ls == [Agent(ss[0].agent)] + (ss[0].rules + tail);
      assert ls[1..] == ss[0].rules + tail;
      LinesStart(ss[1..]);
      assert forall l :: l in ss[0].rules ==> !l.Agent? by {
        forall l | l in ss[0].rules ensures !l.Agent? {
          assert 0 < |ss|;
        }
      }
      if ss[0].agent == agent {
        GroupBodyOfRules(ss[0].rules, tail);
      } else {
        assert NoAgentRules(ss[1..]) by {
          forall i, l | 0 <= i < |ss[1..]| && l in ss[1..][i].rules ensures !l.Agent? {
            assert ss[1..][i] == ss[i + 1];
          }
        }
        GroupOfLines(ss[1..], agent);
        GroupOfSkip(ss[0].rules, tail, agent);
      }
    }
  }

  /** Looking for another agent passes over a section's rules. */
  lemma {:induction false} GroupOfSkip(rules: seq<Line>, rest: seq<Line>, agent: string)
    requires forall l :: l in rules ==> !l.Agent?
    ensures GroupOf(rules + rest, agent) == GroupOf(rest, agent)
    decreases |rules|
  {
    if rules == [] {
      assert rules + rest == rest;
    } else {
      assert rules[0] in rules;
      assert (rules + rest)[1..] == rules[1..] + rest;
      GroupOfSkip(rules[1..], rest, agent);
    }
  }

  /** Both sitemaps are announced, and crawlers that fall under the catch-all
    * group are kept out of /admin/ and /api/. */
  lemma RobotsKeepsOutAdmin()
    ensures SitemapAt("https://yourdomain.com/sitemap.xml") in RulesFor(RobotsSections, "*")
    ensures SitemapAt("https://yourdomain.com/blog-sitemap.xml") in RulesFor(RobotsSections, "*")
    ensures Disallow("/admin/") in RulesFor(RobotsSections, "*")
    ensures Disallow("/api/") in RulesFor(RobotsSections, "*")
  {
    var star := RobotsSections[0].rules;
    assert RulesFor(RobotsSections, "*") == star;
    assert star[3] == SitemapAt("https://yourdomain.com/sitemap.xml");
    assert star[4] == SitemapAt("https://yourdomain.com/blog-sitemap.xml");
    assert star[7] == Disallow("/admin/") && star[8] == Disallow("/api/");
  }

  /** The rules of an agent are those of the first section naming it. */
  lemma {:induction false} RulesForAt(ss: seq<Section>, agent: string, k: nat)
    requires k < |ss| && ss[k].agent == agent
    requires forall i :: 0 <= i < k ==> ss[i].agent != agent
    ensures RulesFor(ss, agent) == ss[k].rules
    decreases k
  {
    if k > 0 {
      RulesForAt(ss[1..], agent, k - 1);
    }
  }

  /** The AI crawlers are kept out of the whole site. */
  lemma RobotsKeepsOutAiBots()
    ensures RulesFor(RobotsSections, "GPTBot") == [Disallow("/"), Blank]
    ensures RulesFor(RobotsSections, "Claude-Web") == [Disallow("/")]
  {
    RulesForAt(RobotsSections, "GPTBot", 5);
    RulesForAt(RobotsSections, "Claude-Web", 6);
  }
}
