// The cookie-consent banner of src/components/CookieConsent.tsx.
//
// On mount the component looks at local storage: without a consent flag it
// schedules the banner to appear two seconds later, with one it loads the
// saved preferences.  Every way of answering the banner goes through
// saveConsent, which writes the flag and the preferences, hides the banner
// and, when analytics is allowed, asks the analytics module to initialise.
// Local storage is the pair `consentFlag` / `savedPrefs`; the requests to
// analytics.init and the cookie_consent events handed to gtag are recorded
// in `analyticsInits` and `consentEvents`.

module CookieConsent {
  import opened Common

  datatype Prefs = Prefs(necessary: bool, analytics: bool, marketing: bool, preferences: bool)

  /** The four keys of CookiePreferences. */
  datatype Category = Necessary | Analytics | Marketing | PreferenceCookies

  /** The id saveConsent passes to analytics.init. */
  const PlaceholderId: string := "GA_MEASUREMENT_ID"
  /** The value written under "cookie-consent". */
  const ConsentValue: string := "true"

  /** `required` in the category list: only the necessary cookies. */
  predicate Required(c: Category)
  {
    c == Necessary
  }

  /** `preferences[key]`. */
  function Allows(p: Prefs, c: Category): bool
  {
    match c
    case Necessary => p.necessary
    case Analytics => p.analytics
    case Marketing => p.marketing
    case PreferenceCookies => p.preferences
  }

  /** `{ ...prev, [key]: checked }`. */
  function With(p: Prefs, c: Category, checked: bool): (r: Prefs)
    ensures Allows(r, c) == checked
    ensures forall d :: d != c ==> Allows(r, d) == Allows(p, d)
  {
    match c
    case Necessary => p.(necessary := checked)
    case Analytics => p.(analytics := checked)
    case Marketing => p.(marketing := checked)
    case PreferenceCookies => p.(preferences := checked)
  }

  /** The initial state of `preferences`, and what acceptNecessary saves:
    * exactly the required category is on. */
  function NecessaryOnly(): (p: Prefs)
    ensures forall c :: Allows(p, c) <==> Required(c)
  {
    Prefs(true, false, false, false)
  }

  /** What acceptAll saves: every category on. */
  function AllOn(): (p: Prefs)
    ensures forall c :: Allows(p, c)
  {
    Prefs(true, true, true, true)
  }

  datatype Banner = Banner(
    showBanner: bool,
    showDetails: bool,
    /** The two-second timer that shows the banner is pending. */
    bannerDue: bool,
    preferences: Prefs,
    /** Local storage under "cookie-consent". */
    consentFlag: Option<string>,
    /** Local storage under "cookie-preferences", already parsed. */
    savedPrefs: Option<Prefs>,
    /** Whether the page defines `window.gtag`. */
    gtagPresent: bool,
    analyticsInits: seq<string>,
    consentEvents: seq<Prefs>)

  /** The component as first rendered, before its effect runs: hidden, with the default preferences. */
  function Fresh(consentFlag: Option<string>, savedPrefs: Option<Prefs>, gtagPresent: bool): (s: Banner)
    ensures !s.showBanner && !s.showDetails && !s.bannerDue
    ensures s.preferences == NecessaryOnly()
    ensures s.consentFlag == consentFlag && s.savedPrefs == savedPrefs
    ensures s.analyticsInits == [] && s.consentEvents == []
  {
    Banner(false, false, false, NecessaryOnly(), consentFlag, savedPrefs, gtagPresent, [], [])
  }

  /** `!consent`: a missing or empty flag. */
  predicate Consented(s: Banner)
  {
    s.consentFlag.Some? && s.consentFlag.value != ""
  }

  /** The mount effect. */
  function AfterMount(s: Banner): Banner
  {
    if !Consented(s) then s.(bannerDue := true)
    else if s.savedPrefs.Some? then s.(preferences := s.savedPrefs.value)
    else s
  }

  /** The timer fires and shows the banner. */
  function AfterTimer(s: Banner): Banner
  {
    if s.bannerDue then s.(showBanner := true, bannerDue := false) else s
  }

  /** saveConsent(prefs). */
  function AfterSave(s: Banner, p: Prefs): Banner
  {
    s.(consentFlag := Some(ConsentValue), savedPrefs := Some(p), preferences := p,
       showBanner := false, showDetails := false,
       analyticsInits := s.analyticsInits + (if p.analytics then [PlaceholderId] else []),
       consentEvents := s.consentEvents + (if s.gtagPresent then [p] else []))
  }

  /** The checkbox of one category; the required one is disabled and cannot change. */
  function AfterToggle(s: Banner, c: Category, checked: bool): Banner
  {
    if Required(c) then s else s.(preferences := With(s.preferences, c, checked))
  }

  /** The close button. */
  function AfterClose(s: Banner): Banner
  {
    s.(showBanner := false)
  }

  /** "Customize" (true) and "Back" (false). */
  function AfterDetails(s: Banner, show: bool): Banner
  {
    s.(showDetails := show)
  }

  // ---------------------------------------------------------------------
  // Properties

  /** Without a consent flag the mount effect only schedules the banner; with
    * one the banner is never scheduled and saved preferences are loaded. */
  lemma MountFacts(s: Banner)
    requires !s.bannerDue && !s.showBanner
    ensures !Consented(s) ==> AfterMount(s) == s.(bannerDue := true) && !AfterMount(s).showBanner
    ensures Consented(s) ==> !AfterMount(s).bannerDue && !AfterTimer(AfterMount(s)).showBanner
    ensures Consented(s) && s.savedPrefs.Some? ==> AfterMount(s).preferences == s.savedPrefs.value
    ensures Consented(s) && s.savedPrefs.None? ==> AfterMount(s).preferences == s.preferences
    ensures !Consented(s) ==> AfterTimer(AfterMount(s)).showBanner
  {
  }

  /** saveConsent stores the flag and the preferences and closes both views. */
  lemma SaveFacts(s: Banner, p: Prefs)
    ensures Consented(AfterSave(s, p)) && AfterSave(s, p).consentFlag == Some("true")
    ensures AfterSave(s, p).savedPrefs == Some(p) && AfterSave(s, p).preferences == p
    ensures !AfterSave(s, p).showBanner && !AfterSave(s, p).showDetails
  {
  }

  /** analytics.init is requested exactly when the saved preferences allow
    * analytics, and then with the placeholder id. */
  lemma AnalyticsOnlyWithConsent(s: Banner, p: Prefs)
    ensures |AfterSave(s, p).analyticsInits| > |s.analyticsInits| <==> p.analytics
    ensures AfterSave(s, p).analyticsInits[..|s.analyticsInits|] == s.analyticsInits
    ensures forall i :: |s.analyticsInits| <= i < |AfterSave(s, p).analyticsInits| ==>
              AfterSave(s, p).analyticsInits[i] == PlaceholderId
  {
  }

  /** "Necessary Only" never starts analytics; "Accept All" always does. */
  lemma AcceptChoices(s: Banner)
    ensures AfterSave(s, NecessaryOnly()).analyticsInits == s.analyticsInits
    ensures AfterSave(s, AllOn()).analyticsInits == s.analyticsInits + [PlaceholderId]
    ensures forall c :: Allows(AfterSave(s, AllOn()).savedPrefs.value, c)
    ensures forall c :: Allows(AfterSave(s, NecessaryOnly()).savedPrefs.value, c) <==> Required(c)
  {
    AnalyticsOnlyWithConsent(s, NecessaryOnly());
  }

  /** What saveConsent writes is what the next visit reads: the banner stays
    * hidden and the saved choice comes back. */
  lemma ReloadAfterSave(s: Banner, p: Prefs, gtagPresent: bool)
    ensures var next := AfterMount(Fresh(AfterSave(s, p).consentFlag, AfterSave(s, p).savedPrefs, gtagPresent));
      next.preferences == p && !next.bannerDue && !AfterTimer(next).showBanner
  {
  }

  /** Closing writes nothing, so a visit without earlier consent asks again. */
  lemma CloseAsksAgain(s: Banner, gtagPresent: bool)
    requires !Consented(s)
    ensures AfterClose(s).consentFlag == s.consentFlag && AfterClose(s).savedPrefs == s.savedPrefs
    ensures !AfterClose(s).showBanner
    ensures AfterTimer(AfterMount(Fresh(AfterClose(s).consentFlag, AfterClose(s).savedPrefs, gtagPresent))).showBanner
  {
  }

  /** A toggle changes only its own category, and the required one not at all. */
  lemma ToggleOnlyThatKey(s: Banner, c: Category, checked: bool)
    ensures forall d :: d != c ==> Allows(AfterToggle(s, c, checked).preferences, d) == Allows(s.preferences, d)
    ensures Allows(AfterToggle(s, c, checked).preferences, c) == (if Required(c) then Allows(s.preferences, c) else checked)
    ensures AfterToggle(s, c, checked).(preferences := s.preferences) == s
  {
  }

  /** Necessary cookies are on in the preferences and in what is stored. */
  predicate NecessaryOn(s: Banner)
  {
    s.preferences.necessary && (s.savedPrefs.Some? ==> s.savedPrefs.value.necessary)
  }

  /** Every handler the component offers keeps the necessary cookies on:
    * the mount effect, the timer, the toggles, close, customize and back, and
    * the three ways of saving. */
  lemma NecessaryAlwaysOn(s: Banner, c: Category, checked: bool, show: bool)
    requires NecessaryOn(s)
    ensures NecessaryOn(AfterMount(s)) && NecessaryOn(AfterTimer(s))
    ensures NecessaryOn(AfterToggle(s, c, checked))
    ensures NecessaryOn(AfterClose(s)) && NecessaryOn(AfterDetails(s, show))
    ensures NecessaryOn(AfterSave(s, AllOn())) && NecessaryOn(AfterSave(s, NecessaryOnly()))
    ensures NecessaryOn(AfterSave(s, s.preferences))
  {
    if !Required(c) {
      assert Allows(With(s.preferences, c, checked), Necessary) == s.preferences.necessary;
    }
  }

  lemma FreshNecessaryOn(consentFlag: Option<string>, savedPrefs: Option<Prefs>, gtagPresent: bool)
    requires savedPrefs.Some? ==> savedPrefs.value.necessary
    ensures NecessaryOn(Fresh(consentFlag, savedPrefs, gtagPresent))
  {
  }

  class ConsentBanner {
    var showBanner: bool
    var showDetails: bool
    var bannerDue: bool
    var preferences: Prefs
    var consentFlag: Option<string>
    var savedPrefs: Option<Prefs>
    const gtagPresent: bool
    var analyticsInits: seq<string>
    var consentEvents: seq<Prefs>

    function State(): Banner
      reads this
    {
      Banner(showBanner, showDetails, bannerDue, preferences, consentFlag, savedPrefs,
             gtagPresent, analyticsInits, consentEvents)
    }

    constructor (consentFlag: Option<string>, savedPrefs: Option<Prefs>, gtagPresent: bool)
      ensures State() == Fresh(consentFlag, savedPrefs, gtagPresent)
    {
      showBanner := false;
      showDetails := false;
      bannerDue := false;
      preferences := Prefs(true, false, false, false);
      this.consentFlag := consentFlag;
      this.savedPrefs := savedPrefs;
      this.gtagPresent := gtagPresent;
      analyticsInits := [];
      consentEvents := [];
    }

    method Mount()
      modifies this
      ensures State() == AfterMount(old(State()))
    {
      if consentFlag.None? || consentFlag.value == "" {
        bannerDue := true;
      } else if savedPrefs.Some? {
        preferences := savedPrefs.value;
      }
    }

    method BannerTimerFires()
      modifies this
      ensures State() == AfterTimer(old(State()))
    {
      if bannerDue {
        showBanner := true;
        bannerDue := false;
      }
    }

    method SaveConsent(p: Prefs)
      modifies this
      ensures State() == AfterSave(old(State()), p)
    {
      consentFlag := Some(ConsentValue);
      savedPrefs := Some(p);
      preferences := p;
      showBanner := false;
      showDetails := false;
      if p.analytics {
        analyticsInits := analyticsInits + [PlaceholderId];
      }
      if gtagPresent {
        consentEvents := consentEvents + [p];
      }
    }

    method AcceptAll()
      modifies this
      ensures State() == AfterSave(old(State()), AllOn())
    {
      SaveConsent(Prefs(true, true, true, true));
    }

    method AcceptNecessary()
      modifies this
      ensures State() == AfterSave(old(State()), NecessaryOnly())
    {
      SaveConsent(Prefs(true, false, false, false));
    }

    method SaveCustom()
      modifies this
      ensures State() == AfterSave(old(State()), old(preferences))
    {
      SaveConsent(preferences);
    }

    method Toggle(c: Category, checked: bool)
      modifies this
      ensures State() == AfterToggle(old(State()), c, checked)
    {
      if c != Necessary {
        preferences := With(preferences, c, checked);
      }
    }

    method Close()
      modifies this
      ensures State() == AfterClose(old(State()))
    {
      showBanner := false;
    }

    method SetShowDetails(show: bool)
      modifies this
      ensures State() == AfterDetails(old(State()), show)
    {
      showDetails := show;
    }

    /** The component renders nothing while the banner is hidden. */
    method IsRendered() returns (visible: bool)
      ensures visible == showBanner
    {
      visible := showBanner;
    }
  }
}
