// The tracking hooks of src/hooks/useAnalyticsTracking.ts.
//
// Each hook's closure variables become the fields of a class: the scroll
// tracker's maximum and milestone set, the engagement tracker's activity
// state, and throttle's `previous` and pending timer.  Clocks are parameters,
// a timer firing is an operation of its own, and the events a hook hands to
// the analytics wrapper are recorded in order.

module AnalyticsTracking {
  import opened Common
  import opened AnalyticsEvents

  // ---------------------------------------------------------------------
  // Scroll depth

  const Milestones: seq<int> := [25, 50, 75, 100]

  /** The milestones of `ms` above `low` and at most `high`, in list order. */
  function Crossed(ms: seq<int>, low: int, high: int): (r: seq<int>)
    ensures forall m :: m in r <==> m in ms && low < m <= high
    decreases |ms|
  {
    if ms == [] then []
    else Crossed(ms[..|ms| - 1], low, high) + (if low < ms[|ms| - 1] <= high then [ms[|ms| - 1]] else [])
  }

  predicate Increasing(xs: seq<int>)
  {
    forall i, j :: 0 <= i < j < |xs| ==> xs[i] < xs[j]
  }

  lemma {:induction false} CrossedIncreasing(ms: seq<int>, low: int, high: int)
    requires Increasing(ms)
    ensures Increasing(Crossed(ms, low, high))
    decreases |ms|
  {
    if ms != [] {
      var init := ms[..|ms| - 1];
      assert Increasing(init);
      CrossedIncreasing(init, low, high);
      var c := Crossed(init, low, high);
      forall k | 0 <= k < |c|
        ensures c[k] < ms[|ms| - 1]
      {
        assert c[k] in init;
      }
    }
  }

  /** The milestones reached so far, once each and in ascending order. */
  function Reached(maxScroll: int): (r: seq<int>)
    ensures Increasing(r)
    ensures forall m :: m in r <==> m in Milestones && 0 < m <= maxScroll
  {
    CrossedIncreasing(Milestones, 0, maxScroll);
    Crossed(Milestones, 0, maxScroll)
  }

  /** `[m]` when `m` lies in (low, high], else nothing. */
  function Pick(m: int, low: int, high: int): seq<int>
  {
    if low < m <= high then [m] else []
  }

  lemma CrossedMilestones(low: int, high: int)
    ensures Crossed(Milestones, low, high)
         == Pick(25, low, high) + Pick(50, low, high) + Pick(75, low, high) + Pick(100, low, high)
  {
    var m1, m2, m3 := [25], [25, 50], [25, 50, 75];
    assert m1[..0] == [] && m2[..1] == m1 && m3[..2] == m2 && Milestones[..3] == m3;
    assert Crossed(m1, low, high) == Pick(25, low, high);
    assert Crossed(m2, low, high) == Pick(25, low, high) + Pick(50, low, high);
    assert Crossed(m3, low, high) == Pick(25, low, high) + Pick(50, low, high) + Pick(75, low, high);
  }

  /** Milestones all at most `low` cross nothing above it. */
  lemma {:induction false} CrossedNoneAbove(ms: seq<int>, low: int, high: int)
    requires forall i :: 0 <= i < |ms| ==> ms[i] <= low
    ensures Crossed(ms, low, high) == []
    decreases |ms|
  {
    if ms != [] {
      CrossedNoneAbove(ms[..|ms| - 1], low, high);
    }
  }

  /** Over increasing milestones, those in (lo, a] come before those in (a, b]. */
  lemma {:induction false} CrossedSplit(ms: seq<int>, lo: int, a: int, b: int)
    requires Increasing(ms) && lo <= a <= b
    ensures Crossed(ms, lo, a) + Crossed(ms, a, b) == Crossed(ms, lo, b)
    decreases |ms|
  {
    if ms != [] {
      var init, m := ms[..|ms| - 1], ms[|ms| - 1];
      IncreasingInit(ms);
      CrossedSplit(init, lo, a, b);
      var x, y := Crossed(init, lo, a), Crossed(init, a, b);
      if lo < m <= a {
        CrossedNoneAbove(init, a, b);
      }
      JoinPicks(x, y, Pick(m, lo, a), Pick(m, a, b), Pick(m, lo, b));
    }
  }

  /** Dropping the last of increasing milestones leaves them increasing and below it. */
  lemma IncreasingInit(ms: seq<int>)
    requires Increasing(ms) && ms != []
    ensures Increasing(ms[..|ms| - 1])
    ensures forall i :: 0 <= i < |ms| - 1 ==> ms[i] < ms[|ms| - 1]
  {
  }

  /** The last milestone lands in exactly one of the two halves, or in neither. */
  lemma JoinPicks(x: seq<int>, y: seq<int>, p: seq<int>, q: seq<int>, pq: seq<int>)
    requires (y == [] && q == [] && p == pq) || (p == [] && q == pq)
    ensures (x + p) + (y + q) == x + y + pq
  {
  }

  /** Raising the maximum from a to b reports the milestones in (a, b] after the earlier ones. */
  lemma ReachedGrows(a: int, b: int)
    requires 0 <= a <= b
    ensures Reached(a) + Crossed(Milestones, a, b) == Reached(b)
  {
    assert Increasing(Milestones);
    CrossedSplit(Milestones, 0, a, b);
  }

  /** The tracked set after the loop of handleScroll has looked at `i` milestones. */
  ghost function TrackedAfter(before: int, percentage: int, i: nat): set<int>
    requires i <= |Milestones|
  {
    (set m | m in Milestones && m <= before) + (set m | m in Milestones[..i] && m <= percentage)
  }

  /** One turn of handleScroll's loop: a milestone is added and reported exactly
    * when it lies above the old maximum and at most the new one. */
  lemma ScrollStep(before: int, percentage: int, i: nat)
    requires before < percentage && i < |Milestones|
    ensures var m, t := Milestones[i], TrackedAfter(before, percentage, i);
      && ((percentage >= m && m !in t) <==> before < m <= percentage)
      && TrackedAfter(before, percentage, i + 1) == (if percentage >= m && m !in t then t + {m} else t)
      && Crossed(Milestones[..i + 1], before, percentage)
         == Crossed(Milestones[..i], before, percentage) + (if before < m <= percentage then [m] else [])
  {
    var m := Milestones[i];
    assert Milestones[..i + 1][..i] == Milestones[..i];
    assert Milestones[..i + 1] == Milestones[..i] + [m];
    assert m !in Milestones[..i];
  }

  class ScrollTracker {
    var maxScroll: int
    var tracked: set<int>
    /** The milestones handed to trackScrollDepth, oldest first. */
    var reported: seq<int>

    /** The tracked set is the milestones up to the maximum, and each was
      * reported once, in ascending order. */
    predicate Valid()
      reads this
    {
      0 <= maxScroll
      && tracked == (set m | m in Milestones && m <= maxScroll)
      && reported == Reached(maxScroll)
    }

    constructor ()
      ensures Valid() && maxScroll == 0 && reported == []
    {
      CrossedMilestones(0, 0);
      maxScroll := 0;
      tracked := {};
      reported := [];
    }

    /** One (throttled) scroll event at the rounded percentage `percentage`. */
    method HandleScroll(percentage: int)
      requires Valid()
      modifies this
      ensures Valid()
      ensures maxScroll == Max(old(maxScroll), percentage)
      ensures reported == old(reported) + Crossed(Milestones, old(maxScroll), maxScroll)
    {
      if percentage <= maxScroll {
        assert Crossed(Milestones[..0], maxScroll, maxScroll) == [];
        ReachedGrows(maxScroll, maxScroll);
        return;
      }
      var before := maxScroll;
      maxScroll := percentage;
      var i := 0;
      while i < |Milestones|
        invariant 0 <= i <= |Milestones| && maxScroll == percentage
        invariant tracked == TrackedAfter(before, percentage, i)
        invariant reported == old(reported) + Crossed(Milestones[..i], before, percentage)
      {
        var milestone := Milestones[i];
        ScrollStep(before, percentage, i);
        if percentage >= milestone && milestone !in tracked {
          tracked := tracked + {milestone};
          reported := reported + [milestone];
        }
        i := i + 1;
      }
      assert Milestones[..i] == Milestones;
      ReachedGrows(before, percentage);
    }
  }

  /** The maximum never decreases, and a scroll below it reports nothing. */
  lemma ScrollBelowMaxIsIgnored(maxScroll: int, percentage: int)
    requires 0 <= maxScroll && percentage <= maxScroll
    ensures Crossed(Milestones, maxScroll, Max(maxScroll, percentage)) == []
  {
    CrossedMilestones(maxScroll, maxScroll);
  }

  // ---------------------------------------------------------------------
  // Engagement time

  const InactivityMs: int := 30000
  const MinEngagementMs: int := 5000

  datatype Engagement = Engagement(start: int, isActive: bool, lastActive: int)

  function Begin(now: int): Engagement
  {
    Engagement(now, true, now)
  }

  /** handleActivity: only a return from inactivity moves lastActiveTime. */
  function Activity(e: Engagement, now: int): (r: Engagement)
    ensures r.isActive && r.start == e.start
    ensures e.isActive ==> r == e
  {
    if e.isActive then e else e.(isActive := true, lastActive := now)
  }

  function Inactivity(e: Engagement): Engagement
  {
    e.(isActive := false)
  }

  /** The engagement event sent at unload or unmount: the end is now while
    * active and lastActiveTime otherwise; nothing is sent at 5 s or less. */
  function Final(e: Engagement, now: int): (r: Option<Event>)
    ensures r.Some? <==> (if e.isActive then now else e.lastActive) - e.start > MinEngagementMs
    ensures r.Some? ==> r.value == EngagementTime((if e.isActive then now else e.lastActive) - e.start)
  {
    var end := if e.isActive then now else e.lastActive;
    if end - e.start > MinEngagementMs then Some(EngagementTime(end - e.start)) else None
  }

  /** As written, a visitor who is busy from the start and then goes idle is
    * credited with no time at all: lastActiveTime still holds the start.
    * Activity at 0, 20000, 40000 and 60000 ms keeps every gap under the
    * 30-second timeout, so the timer, re-armed each time, first fires at
    * 90000 ms; unload at 200000 ms then reports nothing. */
  lemma ContinuousActivityUncounted()
    ensures var busy := Activity(Activity(Activity(Begin(0), 20000), 40000), 60000);
      && busy.isActive && busy.lastActive == 0
      && Inactivity(busy).lastActive == 0 && Final(Inactivity(busy), 200000).None?
    ensures var busy := ActivityRecorded(ActivityRecorded(ActivityRecorded(Begin(0), 20000), 40000), 60000);
      Final(Inactivity(busy), 200000) == Some(EngagementTime(60000))
  {
  }

  /** The evident intent: every activity records its time. */
  function ActivityRecorded(e: Engagement, now: int): (r: Engagement)
    ensures r.isActive && r.start == e.start && r.lastActive == now
  {
    e.(isActive := true, lastActive := now)
  }

  /** With every activity recorded, an idle visitor's engagement ends at their
    * last activity, and more than five seconds of it is reported. */
  lemma RecordedActivityCounts(e: Engagement, t: int, now: int)
    requires t - e.start > MinEngagementMs
    ensures Final(Inactivity(ActivityRecorded(e, t)), now) == Some(EngagementTime(t - e.start))
  {
  }

  class EngagementTracker {
    const startTime: int
    var isActive: bool
    var lastActiveTime: int
    /** When the pending inactivity timer fires. */
    var inactivityDue: int
    /** The engagement events sent, oldest first. */
    var sent: seq<Event>

    function State(): Engagement
      reads this
    {
      Engagement(startTime, isActive, lastActiveTime)
    }

    /** Mounting starts the clock and arms the inactivity timer. */
    constructor (now: int)
      ensures State() == Begin(now) && inactivityDue == now + InactivityMs && sent == []
    {
      startTime := now;
      isActive := true;
      lastActiveTime := now;
      inactivityDue := now + InactivityMs;
      sent := [];
    }

    /** Any mouse, key, scroll or touch event: re-arm the timer, then handleActivity. */
    method ResetInactivityTimer(now: int)
      modifies this
      ensures inactivityDue == now + InactivityMs
      ensures State() == Activity(old(State()), now) && sent == old(sent)
    {
      inactivityDue := now + InactivityMs;
      if !isActive {
        isActive := true;
        lastActiveTime := now;
      }
    }

    /** The inactivity timer fires, at the time it was armed for. */
    method HandleInactivity(now: int)
      requires now == inactivityDue
      modifies this
      ensures State() == Inactivity(old(State()))
      ensures inactivityDue == old(inactivityDue) && sent == old(sent)
    {
      isActive := false;
    }

    /** trackFinalEngagement, on unload or unmount. */
    method TrackFinalEngagement(now: int)
      modifies this
      ensures State() == old(State()) && inactivityDue == old(inactivityDue)
      ensures var f := Final(old(State()), now); sent == old(sent) + (if f.Some? then [f.value] else [])
    {
      var endTime := if isActive then now else lastActiveTime;
      var engagementTime := endTime - startTime;
      if engagementTime > MinEngagementMs {
        sent := sent + [EngagementTime(engagementTime)];
      }
    }
  }

  /** The trace of ContinuousActivityUncounted run on the tracker itself, with
    * the inactivity timer firing only when it is due: nothing is sent. */
  method ContinuousActivityTrace() returns (sent: seq<Event>, lastActive: int)
    ensures lastActive == 0 && sent == []
  {
    var t := new EngagementTracker(0);
    t.ResetInactivityTimer(20000);
    t.ResetInactivityTimer(40000);
    t.ResetInactivityTimer(60000);
    t.HandleInactivity(90000);
    t.TrackFinalEngagement(200000);
    sent, lastActive := t.sent, t.lastActiveTime;
  }

  // ---------------------------------------------------------------------
  // Button and form labels

  /** trackClick: the location defaults to "unknown" when not given. */
  function Click(buttonName: string, location: Option<string>): (e: Event)
    ensures e.action == "button_click"
    ensures location.None? ==> e.eventLabel == Some(DashLabel(buttonName, "unknown"))
    ensures location.Some? ==> e.eventLabel == Some(DashLabel(buttonName, location.value))
  {
    ButtonClick(buttonName, if location.Some? then location.value else "unknown")
  }

  function FormStart(formName: string): Event
  {
    Event("form_start", "forms", Some(formName), None)
  }

  function FormField(formName: string, fieldName: string): Event
  {
    Event("form_field_interaction", "forms", Some(DashLabel(formName, fieldName)), None)
  }

  function FormError(formName: string, errorType: string): Event
  {
    Event("form_error", "forms", Some(DashLabel(formName, errorType)), None)
  }

  /** Every form event is in the forms category, labelled with the form's
    * name first, and the three kinds are told apart by their action. */
  lemma FormEventsFacts(formName: string, other: string)
    ensures FormStart(formName).category == "forms" && FormStart(formName).eventLabel == Some(formName)
    ensures FormField(formName, other).category == "forms" && FormError(formName, other).category == "forms"
    ensures StartsWith(FormField(formName, other).eventLabel.value, formName + " - ")
    ensures StartsWith(FormError(formName, other).eventLabel.value, formName + " - ")
    ensures FormField(formName, other).action != FormError(formName, other).action
    ensures FormStart(formName).action != FormField(formName, other).action
  {
    var l := DashLabel(formName, other);
    assert l[..|formName + " - "|] == formName + " - ";
  }

  // ---------------------------------------------------------------------
  // throttle

  datatype Throttle = Throttle(wait: int, previous: int, pendingDue: Option<int>, runs: seq<int>)

  /** A call at `now`: run at once when at least `wait` has passed since
    * `previous` (or the clock went back), dropping a pending run; otherwise
    * arm one trailing run for the end of the window unless one is armed. */
  function AfterCall(t: Throttle, now: int): (r: Throttle)
    ensures r.wait == t.wait
  {
    var remaining := t.wait - (now - t.previous);
    if remaining <= 0 || remaining > t.wait then
      t.(previous := now, pendingDue := None, runs := t.runs + [now])
    else if t.pendingDue.None? then
      t.(pendingDue := Some(now + remaining))
    else t
  }

  /** The trailing timer fires at `now`. */
  function AfterFire(t: Throttle, now: int): Throttle
  {
    t.(previous := now, pendingDue := None, runs := t.runs + [now])
  }

  /** Runs are at least `wait` apart, the last run is at `previous`, and an
    * armed timer is due exactly `wait` after it. */
  predicate Spaced(t: Throttle)
  {
    (forall i :: 0 < i < |t.runs| ==> t.runs[i] - t.runs[i - 1] >= t.wait)
    && (t.runs != [] ==> t.runs[|t.runs| - 1] == t.previous)
    && (t.pendingDue.Some? ==> t.pendingDue.value == t.previous + t.wait)
  }

  /** With a clock that does not go back, a call keeps runs at least `wait` apart. */
  lemma CallKeepsSpacing(t: Throttle, now: int)
    requires Spaced(t) && t.wait >= 0 && now >= t.previous
    ensures Spaced(AfterCall(t, now))
    ensures AfterCall(t, now).runs == t.runs + (if now - t.previous >= t.wait then [now] else [])
  {
  }

  /** A trailing run that fires when due (or later) keeps runs at least `wait` apart. */
  lemma FireKeepsSpacing(t: Throttle, now: int)
    requires Spaced(t) && t.pendingDue.Some? && now >= t.pendingDue.value && t.wait >= 0
    ensures Spaced(AfterFire(t, now))
  {
  }

  /** However often it is called within a window, at most one trailing run is armed. */
  lemma CallsWithinWindowArmOnce(t: Throttle, n1: int, n2: int)
    requires t.wait > 0 && t.previous < n1 <= n2 < t.previous + t.wait && t.pendingDue.None?
    ensures AfterCall(t, n1).pendingDue == Some(t.previous + t.wait)
    ensures AfterCall(AfterCall(t, n1), n2) == AfterCall(t, n1)
  {
  }

  class Throttled {
    const wait: int
    var previous: int
    /** When the armed trailing call fires, if one is armed. */
    var pendingDue: Option<int>
    /** The times the wrapped function ran. */
    var runs: seq<int>

    function State(): Throttle
      reads this
    {
      Throttle(wait, previous, pendingDue, runs)
    }

    constructor (wait: int)
      ensures State() == Throttle(wait, 0, None, [])
    {
      this.wait := wait;
      previous := 0;
      pendingDue := None;
      runs := [];
    }

    method Invoke(now: int)
      modifies this
      ensures State() == AfterCall(old(State()), now)
    {
      var remaining := wait - (now - previous);
      if remaining <= 0 || remaining > wait {
        if pendingDue.Some? {
          pendingDue := None;
        }
        previous := now;
        runs := runs + [now];
      } else if pendingDue.None? {
        pendingDue := Some(now + remaining);
      }
    }

    /** The armed timer fires. */
    method TimerFires(now: int)
      requires pendingDue.Some?
      modifies this
      ensures State() == AfterFire(old(State()), now)
    {
      previous := now;
      pendingDue := None;
      runs := runs + [now];
    }
  }
}
