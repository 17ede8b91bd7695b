// The Google Analytics wrapper of src/utils/analytics.ts.
//
// init loads the gtag script once and starts the data layer; every tracking
// helper formats an event and hands it to trackEvent, which forwards it to the
// data layer only after init.  The data layer is the `dataLayer` field, one
// Call per gtag invocation; the script tags added to the page are `scripts`.
// The date, document title and page URL init records are parameters.

module AnalyticsEvents {
  import opened Common

  /** One `gtag(...)` invocation as it lands in the data layer. */
  datatype Call =
    | JsStart(date: int)
    | SiteConfig(measurementId: string, pageTitle: string, pageLocation: string)
    | PageView(target: string, pagePath: string, pageTitle: string)
    | EventCall(action: string, category: string, eventLabel: Option<string>, value: Option<int>)

  /** An AnalyticsEvent: label and value are optional. */
  datatype Event = Event(action: string, category: string, eventLabel: Option<string>, value: Option<int>)

  datatype Tracker = Tracker(initialized: bool, inBrowser: bool, dataLayer: seq<Call>, scripts: seq<string>)

  const GtagBase: string := "https://www.googletagmanager.com/gtag/js?id="
  /** The id trackPageView configures, whatever id init was given. */
  const PageViewTarget: string := "GA_MEASUREMENT_ID"

  function ScriptUrl(measurementId: string): (u: string)
    ensures StartsWith(u, GtagBase) && u[|GtagBase|..] == measurementId
  {
    GtagBase + measurementId
  }

  /** init: the first call in a browser adds the script, starts the data layer
    * (keeping whatever it already held) and marks the tracker initialised. */
  function AfterInit(t: Tracker, measurementId: string, date: int, title: string, location: string): (r: Tracker)
    ensures t.initialized || !t.inBrowser ==> r == t
    ensures !t.initialized && t.inBrowser ==>
      r.initialized && r.inBrowser == t.inBrowser
      && r.scripts == t.scripts + [ScriptUrl(measurementId)]
      && r.dataLayer == t.dataLayer + [JsStart(date), SiteConfig(measurementId, title, location)]
  {
    if t.initialized || !t.inBrowser then t
    else Tracker(true, t.inBrowser, t.dataLayer + [JsStart(date), SiteConfig(measurementId, title, location)],
                 t.scripts + [ScriptUrl(measurementId)])
  }

  /** Forward one call to gtag when initialised in a browser; otherwise nothing. */
  function Forward(t: Tracker, c: Call): (r: Tracker)
    ensures r.initialized == t.initialized && r.inBrowser == t.inBrowser && r.scripts == t.scripts
    ensures r.dataLayer == t.dataLayer + (if t.initialized && t.inBrowser then [c] else [])
  {
    if t.initialized && t.inBrowser then t.(dataLayer := t.dataLayer + [c]) else t
  }

  function AfterEvent(t: Tracker, e: Event): Tracker
  {
    Forward(t, EventCall(e.action, e.category, e.eventLabel, e.value))
  }

  /** `title || document.title`. */
  function AfterPageView(t: Tracker, path: string, title: Option<string>, documentTitle: string): Tracker
  {
    Forward(t, PageView(PageViewTarget, path, if title.Some? && title.value != "" then title.value else documentTitle))
  }

  /** A second init does nothing, whatever id it is given. */
  lemma InitIdempotent(t: Tracker, id1: string, id2: string, d1: int, d2: int, title: string, location: string)
    ensures var once := AfterInit(t, id1, d1, title, location);
      AfterInit(once, id2, d2, title, location) == once
  {
  }

  /** Before init nothing is forwarded: events and page views leave the tracker as it was. */
  lemma NothingBeforeInit(t: Tracker, e: Event, path: string, title: Option<string>, documentTitle: string)
    requires !t.initialized
    ensures AfterEvent(t, e) == t
    ensures AfterPageView(t, path, title, documentTitle) == t
  {
  }

  /** After init every event reaches the data layer, in order. */
  lemma EventsAfterInit(t: Tracker, id: string, date: int, title: string, location: string, e: Event)
    requires t.inBrowser
    ensures var i := AfterInit(t, id, date, title, location);
      AfterEvent(i, e).dataLayer == i.dataLayer + [EventCall(e.action, e.category, e.eventLabel, e.value)]
  {
  }

  // ---------------------------------------------------------------------
  // The helpers' events

  function FormSubmission(formName: string, success: bool): (e: Event)
    ensures e.category == "forms" && e.eventLabel == Some(formName) && e.value.None?
    ensures e.action == (if success then "form_submit_success" else "form_submit_error")
  {
    Event(if success then "form_submit_success" else "form_submit_error", "forms", Some(formName), None)
  }

  /** The label "first - second" of clicks and form interactions. */
  function DashLabel(first: string, second: string): (l: string)
    ensures StartsWith(l, first) && EndsWith(l, second)
    ensures |l| == |first| + 3 + |second|
    ensures l[|first|..|first| + 3] == " - "
  {
    first + " - " + second
  }

  function ButtonClick(buttonName: string, location: string): Event
  {
    Event("button_click", "engagement", Some(DashLabel(buttonName, location)), None)
  }

  /** The download label "filename (fileType)". */
  function DownloadLabel(filename: string, fileType: string): (l: string)
    ensures StartsWith(l, filename) && EndsWith(l, fileType + ")")
    ensures |l| == |filename| + |fileType| + 3 && l[|filename|..|filename| + 2] == " ("
  {
    filename + " (" + fileType + ")"
  }

  function Download(filename: string, fileType: string): Event
  {
    Event("file_download", "downloads", Some(DownloadLabel(filename, fileType)), None)
  }

  function ExternalLink(url: string): Event
  {
    Event("external_link_click", "engagement", Some(url), None)
  }

  function Search(query: string, resultsCount: Option<int>): Event
  {
    Event("search", "search", Some(query), resultsCount)
  }

  /** Whether trackScrollDepth forwards anything: `percentage % 25 === 0`.
    * JavaScript's remainder keeps the sign of the dividend, but it is zero
    * exactly when 25 divides the percentage, as here. */
  predicate ScrollMilestone(percentage: int)
  {
    percentage % 25 == 0
  }

  function ScrollDepth(percentage: int): (e: Event)
    ensures e.eventLabel == Some(IntToString(percentage) + "%") && e.value == Some(percentage)
  {
    Event("scroll_depth", "engagement", Some(IntToString(percentage) + "%"), Some(percentage))
  }

  function AfterScroll(t: Tracker, percentage: int): Tracker
  {
    if ScrollMilestone(percentage) then AfterEvent(t, ScrollDepth(percentage)) else t
  }

  /** Only multiples of 25 are forwarded, and each carries its own percentage. */
  lemma ScrollOnlyMultiples(t: Tracker, percentage: int)
    requires t.initialized && t.inBrowser
    ensures AfterScroll(t, percentage) != t <==> exists k :: percentage == 25 * k
    ensures AfterScroll(t, percentage) != t ==>
      AfterScroll(t, percentage).dataLayer == t.dataLayer + [EventCall("scroll_depth", "engagement", Some(IntToString(percentage) + "%"), Some(percentage))]
  {
    if percentage % 25 == 0 {
      assert percentage == 25 * (percentage / 25);
      assert |AfterScroll(t, percentage).dataLayer| == |t.dataLayer| + 1;
    }
  }

  /** Engagement time in whole seconds, `Math.round(ms / 1000)`. */
  function EngagementTime(timeOnPage: int): (e: Event)
    ensures e.action == "engagement_time" && e.eventLabel == Some("time_on_page")
    ensures e.value.Some? && 2 * timeOnPage - 1000 < 2000 * e.value.value <= 2 * timeOnPage + 1000
  {
    Event("engagement_time", "engagement", Some("time_on_page"), Some(RoundDiv(timeOnPage, 1000)))
  }

  /** Half a second rounds up; just under it rounds down. */
  lemma EngagementRounding()
    ensures EngagementTime(1500).value == Some(2)
    ensures EngagementTime(1499).value == Some(1)
    ensures EngagementTime(499).value == Some(0)
  {
  }

  class Analytics {
    var initialized: bool
    /** Whether `window` exists (false during server rendering). */
    const inBrowser: bool
    var dataLayer: seq<Call>
    var scripts: seq<string>

    function State(): Tracker
      reads this
    {
      Tracker(initialized, inBrowser, dataLayer, scripts)
    }

    /** A fresh instance over whatever data layer the page already has. */
    constructor (inBrowser: bool, existing: seq<Call>)
      ensures State() == Tracker(false, inBrowser, existing, [])
    {
      initialized := false;
      this.inBrowser := inBrowser;
      dataLayer := existing;
      scripts := [];
    }

    method Init(measurementId: string, date: int, title: string, location: string)
      modifies this
      ensures State() == AfterInit(old(State()), measurementId, date, title, location)
    {
      if initialized || !inBrowser {
        return;
      }
      scripts := scripts + [ScriptUrl(measurementId)];
      dataLayer := dataLayer + [JsStart(date)];
      dataLayer := dataLayer + [SiteConfig(measurementId, title, location)];
      initialized := true;
    }

    method TrackPageView(path: string, title: Option<string>, documentTitle: string)
      modifies this
      ensures State() == AfterPageView(old(State()), path, title, documentTitle)
    {
      if !initialized || !inBrowser {
        return;
      }
      var shown := if title.Some? && title.value != "" then title.value else documentTitle;
      dataLayer := dataLayer + [PageView(PageViewTarget, path, shown)];
    }

    method TrackEvent(e: Event)
      modifies this
      ensures State() == AfterEvent(old(State()), e)
    {
      if !initialized || !inBrowser {
        return;
      }
      dataLayer := dataLayer + [EventCall(e.action, e.category, e.eventLabel, e.value)];
    }

    method TrackFormSubmission(formName: string, success: bool)
      modifies this
      ensures State() == AfterEvent(old(State()), FormSubmission(formName, success))
    {
      TrackEvent(FormSubmission(formName, success));
    }

    method TrackButtonClick(buttonName: string, location: string)
      modifies this
      ensures State() == AfterEvent(old(State()), ButtonClick(buttonName, location))
    {
      TrackEvent(ButtonClick(buttonName, location));
    }

    method TrackScrollDepth(percentage: int)
      modifies this
      ensures State() == AfterScroll(old(State()), percentage)
    {
      if percentage % 25 == 0 {
        TrackEvent(ScrollDepth(percentage));
      }
    }

    method TrackDownload(filename: string, fileType: string)
      modifies this
      ensures State() == AfterEvent(old(State()), Download(filename, fileType))
    {
      TrackEvent(Download(filename, fileType));
    }

    method TrackExternalLink(url: string)
      modifies this
      ensures State() == AfterEvent(old(State()), ExternalLink(url))
    {
      TrackEvent(ExternalLink(url));
    }

    method TrackSearch(query: string, resultsCount: Option<int>)
      modifies this
      ensures State() == AfterEvent(old(State()), Search(query, resultsCount))
    {
      TrackEvent(Search(query, resultsCount));
    }

    method TrackEngagementTime(timeOnPage: int)
      modifies this
      ensures State() == AfterEvent(old(State()), EngagementTime(timeOnPage))
    {
      TrackEvent(EngagementTime(timeOnPage));
    }
  }
}
