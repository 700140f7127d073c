/** The analytics orchestrator: one object that, on every page load, reports
    the page view and the content being viewed, reports how far down the page
    the reader scrolls (each depth once per page), starts the time-on-page
    timers, and tears its listeners and timers down before the next page. */
module Analytics {
  import opened Common
  import opened Text
  import opened Seqs

  // ---------------------------------------------------------------------------
  // Events and pages

  /** An event as handed to `send`: its name and parameters. */
  datatype Event =
    | PageView(pageTitle: string, pageLocation: string, pagePath: string)
    | ContentView(contentType: string, contentId: string, contentTitle: string)
    | ContentListView(contentType: string, itemCount: nat)
    | ScrollDepth(percentScrolled: int, depthPath: string, depthTitle: string)
    | TimeOnPage(timeSeconds: nat, timePath: string)

  /** What the orchestrator reads of the current page: `document.title`,
      `location.href`, `location.pathname` and the number of cards shown. */
  datatype Page = Page(title: string, href: string, pathname: string, cardCount: nat)

  // ---------------------------------------------------------------------------
  // Content events

  const ContentSections: seq<string> := ["waypoints", "books", "hikes", "writings", "topics"]

  /** `SECTION_TO_TYPE`: the content type of a section is its singular. */
  function SectionType(section: string): (t: string)
    requires section in ContentSections
    ensures t + "s" == section
  {
    match section
    case "waypoints" => "waypoint"
    case "books" => "book"
    case "hikes" => "hike"
    case "writings" => "writing"
    case "topics" => "topic"
  }

  /** `parts.filter(Boolean)`: the non-empty parts, in order. */
  function NonEmptyParts(parts: seq<string>): seq<string>
  {
    if parts == [] then [] else (if parts[0] != "" then [parts[0]] else []) + NonEmptyParts(parts[1..])
  }

  /** `path.split("/").filter(Boolean)`. */
  function Segments(path: string): seq<string>
  {
    NonEmptyParts(Split(path, '/'))
  }

  lemma {:induction false} NonEmptyPartsShape(parts: seq<string>, sep: char)
    requires forall i :: 0 <= i < |parts| ==> sep !in parts[i]
    ensures forall i :: 0 <= i < |NonEmptyParts(parts)| ==> NonEmptyParts(parts)[i] != "" && sep !in NonEmptyParts(parts)[i]
  {
    if parts != [] {
      var rest := NonEmptyParts(parts[1..]);
      NonEmptyPartsShape(parts[1..], sep);
      if parts[0] != "" {
        var r := [parts[0]] + rest;
        assert NonEmptyParts(parts) == r;
        assert sep !in parts[0];
        forall i | 0 <= i < |r|
          ensures r[i] != "" && sep !in r[i]
        {
          if i > 0 {
            assert r[i] == rest[i - 1];
          }
        }
      } else {
        assert NonEmptyParts(parts) == rest;
      }
    }
  }

  /** The segments of a path are non-empty and contain no `/`. */
  lemma SegmentsShape(path: string)
    ensures forall i :: 0 <= i < |Segments(path)| ==> Segments(path)[i] != "" && '/' !in Segments(path)[i]
  {
    var parts := Split(path, '/');
    assert forall i :: 0 <= i < |parts| ==> '/' !in parts[i];
    NonEmptyPartsShape(parts, '/');
    assert Segments(path) == NonEmptyParts(parts);
  }

  /** The content event `trackContentEvents` sends for a page, if any. */
  function ContentEvent(page: Page): (e: Option<Event>)
    ensures var segs := Segments(page.pathname);
      && (e.None? <==> segs == [] || segs[0] !in ContentSections)
      && (e.Some? && |segs| > 1 ==> e.value == ContentView(SectionType(segs[0]), segs[1], page.title))
      && (e.Some? && |segs| == 1 ==> e.value == ContentListView(SectionType(segs[0]), page.cardCount))
  {
    var segs := Segments(page.pathname);
    if segs == [] then None
    else if segs[0] !in ContentSections then None
    else if |segs| > 1 then Some(ContentView(SectionType(segs[0]), segs[1], page.title))
    else Some(ContentListView(SectionType(segs[0]), page.cardCount))
  }

  /** The segments of `/a/b/`. */
  lemma SegmentsOfTwo(a: string, b: string)
    requires a != "" && '/' !in a && b != "" && '/' !in b
    ensures Segments("/" + a + "/" + b + "/") == [a, b]
  {
    var path := "/" + a + "/" + b + "/";
    assert path == "" + ['/'] + (a + ['/'] + (b + ['/'] + ""));
    SplitAppend("", a + ['/'] + (b + ['/'] + ""), '/');
    SplitAppend(a, b + ['/'] + "", '/');
    SplitAppend(b, "", '/');
    SplitWithoutSep(a, '/');
    SplitWithoutSep(b, '/');
    var parts := Split(path, '/');
    assert parts == ["", a, b, ""];
    assert NonEmptyParts([""]) == [] by {
      assert [""][1..] == [];
    }
    assert NonEmptyParts([b, ""]) == [b] by {
      assert [b, ""][1..] == [""];
    }
    assert NonEmptyParts([a, b, ""]) == [a, b] by {
      assert [a, b, ""][1..] == [b, ""];
    }
    assert parts[1..] == [a, b, ""];
  }

  /** The segments of `/a`. */
  lemma SegmentsOfOne(a: string)
    requires a != "" && '/' !in a
    ensures Segments("/" + a) == [a]
  {
    assert "/" + a == "" + ['/'] + a;
    SplitAppend("", a, '/');
    SplitWithoutSep(a, '/');
    var parts := Split("/" + a, '/');
    assert parts == ["", a];
    assert NonEmptyParts([a]) == [a] by {
      assert [a][1..] == [];
    }
    assert parts[1..] == [a];
  }

  lemma SectionWithoutSlash(section: string)
    requires section in ContentSections
    ensures section != "" && '/' !in section
  {
  }

  /** A detail page `/<section>/<id>/` reports a content view of that id,
      typed by its section. */
  lemma DetailPageIsContentView(section: string, id: string, title: string, href: string, cards: nat)
    requires section in ContentSections && id != "" && '/' !in id
    ensures ContentEvent(Page(title, href, "/" + section + "/" + id + "/", cards))
            == Some(ContentView(SectionType(section), id, title))
  {
    SectionWithoutSlash(section);
    SegmentsOfTwo(section, id);
  }

  /** A section's list page `/<section>` reports a list view with the number
      of cards on the page. */
  lemma ListPageIsContentListView(section: string, title: string, href: string, cards: nat)
    requires section in ContentSections
    ensures ContentEvent(Page(title, href, "/" + section, cards))
            == Some(ContentListView(SectionType(section), cards))
  {
    SectionWithoutSlash(section);
    SegmentsOfOne(section);
  }

  /** The home page reports no content event. */
  lemma HomePageNoContentEvent(title: string, href: string, cards: nat)
    ensures ContentEvent(Page(title, href, "/", cards)) == None
  {
    assert "/" == "" + ['/'] + "";
    SplitAppend("", "", '/');
    assert Split("/", '/') == ["", ""];
    assert Split("/", '/')[1..] == [""];
  }

  // ---------------------------------------------------------------------------
  // Scroll depth

  const ScrollThresholds: seq<int> := [25, 50, 75, 90, 100]

  /** `Math.round`: the nearest integer, halves rounded up. */
  function MathRound(x: real): (r: int)
    ensures r as real - 0.5 <= x < r as real + 0.5
  {
    (x + 0.5).Floor
  }

  /** The percentage `handleScroll` computes, or `None` when the page cannot
      scroll (`maxScroll <= 0`). */
  function ScrollPercent(scrollTop: real, docHeight: real, winHeight: real): (p: Option<int>)
    ensures p.None? <==> docHeight - winHeight <= 0.0
    ensures p.Some? ==>
      var exact := scrollTop / (docHeight - winHeight) * 100.0;
      p.value as real - 0.5 <= exact < p.value as real + 0.5
  {
    var maxScroll := docHeight - winHeight;
    if maxScroll <= 0.0 then None
    else Some(MathRound(scrollTop / maxScroll * 100.0))
  }

  /** The thresholds among the first `k` that a scroll to `percent`
      reports: reached and not reported yet on this page, in increasing
      order. */
  function CrossedUpTo(tracked: set<int>, percent: int, k: nat): seq<int>
    requires k <= |ScrollThresholds|
  {
    if k == 0 then []
    else
      var t := ScrollThresholds[k - 1];
      CrossedUpTo(tracked, percent, k - 1) + (if t <= percent && t !in tracked then [t] else [])
  }

  lemma {:induction false} CrossedUpToMembers(tracked: set<int>, percent: int, k: nat)
    requires k <= |ScrollThresholds|
    ensures forall t :: t in CrossedUpTo(tracked, percent, k) <==>
      t in ScrollThresholds[..k] && t <= percent && t !in tracked
  {
    if k > 0 {
      CrossedUpToMembers(tracked, percent, k - 1);
      assert ScrollThresholds[..k] == ScrollThresholds[..k - 1] + [ScrollThresholds[k - 1]];
    }
  }

  /** The thresholds a scroll to `percent` reports. */
  function Crossed(tracked: set<int>, percent: int): (c: seq<int>)
    ensures forall t :: t in c <==> t in ScrollThresholds && t <= percent && t !in tracked
  {
    CrossedUpToMembers(tracked, percent, |ScrollThresholds|);
    assert ScrollThresholds[..|ScrollThresholds|] == ScrollThresholds;
    CrossedUpTo(tracked, percent, |ScrollThresholds|)
  }

  /** The `scroll_depth` events for the thresholds `c`, in order. */
  function DepthEvents(c: seq<int>, page: Page): (es: seq<Event>)
  {
    seq(|c|, i requires 0 <= i < |c| => ScrollDepth(c[i], page.pathname, page.title))
  }

  lemma DepthEventsAppend(a: seq<int>, b: seq<int>, page: Page)
    ensures DepthEvents(a + b, page) == DepthEvents(a, page) + DepthEvents(b, page)
  {
  }

  /** Once every reached threshold is tracked, a scroll reports nothing. */
  lemma {:induction false} CrossedUpToNone(tracked: set<int>, percent: int, k: nat)
    requires k <= |ScrollThresholds|
    requires forall t :: t in ScrollThresholds && t <= percent ==> t in tracked
    ensures CrossedUpTo(tracked, percent, k) == []
  {
    if k > 0 {
      CrossedUpToNone(tracked, percent, k - 1);
    }
  }

  /** A second scroll to the same depth reports nothing. */
  lemma CrossedAgain(tracked: set<int>, percent: int)
    ensures Crossed(tracked + (set t | t in Crossed(tracked, percent)), percent) == []
  {
    CrossedUpToNone(tracked + (set t | t in Crossed(tracked, percent)), percent, |ScrollThresholds|);
  }

  // ---------------------------------------------------------------------------
  // The orchestrator

  /** A listener the orchestrator has registered on the window or document,
      together with the function that removes it. */
  datatype Listener = ScrollListener | ClickListener

  /** A pending time-on-page timer: its delay and the page that set it. */
  datatype Timer = Timer(seconds: nat, pagePath: string)

  const TimeThresholds: seq<nat> := [10, 30, 60, 120, 300]

  const PageLoadEvent: string := "astro:page-load"
  const BeforePreparationEvent: string := "astro:before-preparation"

  class AnalyticsOrchestrator {
    var isInitialized: bool
    /** `cleanupFunctions`: one per registered listener. */
    var cleanupFunctions: seq<Listener>
    /** `timeOnPageTimers`: the time-on-page timeouts still pending; a timer
        leaves the list when it fires. */
    var timeOnPageTimers: seq<Timer>
    var trackedScrollDepths: set<int>
    /** The document events the orchestrator listens to. */
    var documentListeners: set<string>
    /** Every event sent, oldest first. */
    var sent: seq<Event>
    /** Where the events of the current page start in `sent`. */
    ghost var pageStart: nat
    /** Where in `sent` each threshold tracked on this page was reported. */
    ghost var reportedAt: map<int, nat>

    /** No threshold is reported twice on the current page, and every
        threshold reported on it is tracked. */
    ghost predicate Valid()
      reads this
    {
      && pageStart <= |sent|
      && (forall t :: t in trackedScrollDepths ==> t in ScrollThresholds)
      && reportedAt.Keys == trackedScrollDepths
      && (forall i :: pageStart <= i < |sent| && sent[i].ScrollDepth? ==>
            sent[i].percentScrolled in reportedAt && reportedAt[sent[i].percentScrolled] == i)
    }

    constructor()
      ensures Valid() && !isInitialized
      ensures cleanupFunctions == [] && timeOnPageTimers == [] && trackedScrollDepths == {}
      ensures documentListeners == {} && sent == []
    {
      isInitialized := false;
      cleanupFunctions := [];
      timeOnPageTimers := [];
      trackedScrollDepths := {};
      documentListeners := {};
      sent := [];
      pageStart := 0;
      reportedAt := map[];
    }

    /** `init()`: the first call handles the current page and starts
        listening for page loads and for the preparation of the next page;
        later calls do nothing. */
    method Init(page: Page)
      requires Valid()
      modifies this
      ensures Valid() && isInitialized
      ensures old(isInitialized) ==>
        && sent == old(sent) && cleanupFunctions == old(cleanupFunctions)
        && timeOnPageTimers == old(timeOnPageTimers) && trackedScrollDepths == old(trackedScrollDepths)
        && documentListeners == old(documentListeners)
      ensures !old(isInitialized) ==>
        && sent == old(sent) + PageLoadEvents(page)
        && cleanupFunctions == old(cleanupFunctions) + [ScrollListener, ClickListener]
        && timeOnPageTimers == old(timeOnPageTimers) + TimersFor(page.pathname)
        && trackedScrollDepths == {}
        && documentListeners == old(documentListeners) + {PageLoadEvent, BeforePreparationEvent}
    {
      if isInitialized {
        return;
      }
      HandlePageLoad(page);
      documentListeners := documentListeners + {PageLoadEvent, BeforePreparationEvent};
      isInitialized := true;
    }

    /** The events a page load sends: the page view, then its content event. */
    static function PageLoadEvents(page: Page): seq<Event>
    {
      [PageView(page.title, page.href, page.pathname)]
      + match ContentEvent(page) case Some(e) => [e] case None => []
    }

    static function TimersFor(path: string): (ts: seq<Timer>)
      ensures |ts| == |TimeThresholds|
      ensures forall i :: 0 <= i < |ts| ==> ts[i] == Timer(TimeThresholds[i], path)
    {
      seq(|TimeThresholds|, i requires 0 <= i < |TimeThresholds| => Timer(TimeThresholds[i], path))
    }

    /** `handlePageLoad()`: forgets the depths reported on the previous page,
        sends the page's events and sets up scroll, time and click tracking. */
    method HandlePageLoad(page: Page)
      requires Valid()
      modifies this`trackedScrollDepths, this`pageStart, this`reportedAt, this`sent
      modifies this`cleanupFunctions, this`timeOnPageTimers
      ensures Valid()
      ensures trackedScrollDepths == {}
      ensures sent == old(sent) + PageLoadEvents(page)
      ensures cleanupFunctions == old(cleanupFunctions) + [ScrollListener, ClickListener]
      ensures timeOnPageTimers == old(timeOnPageTimers) + TimersFor(page.pathname)
    {
      trackedScrollDepths := {};
      pageStart := |sent|;
      reportedAt := map[];
      // trackPageView
      sent := sent + [PageView(page.title, page.href, page.pathname)];
      TrackContentEvents(page);
      // setupScrollTracking
      cleanupFunctions := cleanupFunctions + [ScrollListener];
      SetupTimeOnPageTracking(page);
      // setupClickTracking
      cleanupFunctions := cleanupFunctions + [ClickListener];
    }

    /** `trackContentEvents()`. */
    method TrackContentEvents(page: Page)
      requires Valid()
      modifies this`sent
      ensures Valid()
      ensures sent == old(sent) + match ContentEvent(page) case Some(e) => [e] case None => []
    {
      var content := ContentEvent(page);
      if content.Some? {
        sent := sent + [content.value];
      }
    }

    /** `setupTimeOnPageTracking()`: one timer per threshold, each bound to
        the path of the page that set it. */
    method SetupTimeOnPageTracking(page: Page)
      modifies this`timeOnPageTimers
      ensures timeOnPageTimers == old(timeOnPageTimers) + TimersFor(page.pathname)
    {
      var pagePath := page.pathname;
      var k := 0;
      while k < |TimeThresholds|
        invariant 0 <= k <= |TimeThresholds|
        invariant timeOnPageTimers == old(timeOnPageTimers) + TimersFor(pagePath)[..k]
      {
        timeOnPageTimers := timeOnPageTimers + [Timer(TimeThresholds[k], pagePath)];
        assert TimersFor(pagePath)[..k + 1] == TimersFor(pagePath)[..k] + [Timer(TimeThresholds[k], pagePath)];
        k := k + 1;
      }
    }

    /** `cleanup()`: removes every registered listener and clears every
        pending timer. */
    method Cleanup()
      modifies this`cleanupFunctions, this`timeOnPageTimers
      ensures cleanupFunctions == [] && timeOnPageTimers == []
    {
      cleanupFunctions := [];
      timeOnPageTimers := [];
    }

    /** The document fires `astro:page-load`. */
    method OnPageLoad(page: Page)
      requires Valid()
      modifies this`trackedScrollDepths, this`pageStart, this`reportedAt, this`sent
      modifies this`cleanupFunctions, this`timeOnPageTimers
      ensures Valid()
      ensures PageLoadEvent !in documentListeners ==>
        sent == old(sent) && cleanupFunctions == old(cleanupFunctions)
        && timeOnPageTimers == old(timeOnPageTimers) && trackedScrollDepths == old(trackedScrollDepths)
      ensures PageLoadEvent in documentListeners ==>
        sent == old(sent) + PageLoadEvents(page) && trackedScrollDepths == {}
        && cleanupFunctions == old(cleanupFunctions) + [ScrollListener, ClickListener]
        && timeOnPageTimers == old(timeOnPageTimers) + TimersFor(page.pathname)
    {
      if PageLoadEvent in documentListeners {
        HandlePageLoad(page);
      }
    }

    /** The document fires `astro:before-preparation`. */
    method OnBeforePreparation()
      modifies this`cleanupFunctions, this`timeOnPageTimers
      ensures BeforePreparationEvent in documentListeners ==> cleanupFunctions == [] && timeOnPageTimers == []
      ensures BeforePreparationEvent !in documentListeners ==>
        cleanupFunctions == old(cleanupFunctions) && timeOnPageTimers == old(timeOnPageTimers)
    {
      if BeforePreparationEvent in documentListeners {
        Cleanup();
      }
    }

    /** `handleScroll()`: reports each threshold reached and not yet reported
        on this page. */
    method HandleScroll(page: Page, scrollTop: real, docHeight: real, winHeight: real)
      requires Valid()
      modifies this`sent, this`trackedScrollDepths, this`reportedAt
      ensures Valid()
      ensures ScrollPercent(scrollTop, docHeight, winHeight).None? ==>
        sent == old(sent) && trackedScrollDepths == old(trackedScrollDepths)
      ensures ScrollPercent(scrollTop, docHeight, winHeight).Some? ==>
        && sent == old(sent) + DepthEvents(Crossed(old(trackedScrollDepths), ScrollPercent(scrollTop, docHeight, winHeight).value), page)
        && trackedScrollDepths == old(trackedScrollDepths)
             + (set t | t in Crossed(old(trackedScrollDepths), ScrollPercent(scrollTop, docHeight, winHeight).value))
    {
      var p := ScrollPercent(scrollTop, docHeight, winHeight);
      if p.None? {
        return;
      }
      ghost var before := trackedScrollDepths;
      ReportThresholds(page, p.value);
      assert trackedScrollDepths == before + (set t | t in Crossed(before, p.value)) by {
        var c := Crossed(before, p.value);
        assert c == CrossedUpTo(before, p.value, |ScrollThresholds|);
        assert forall t :: t in trackedScrollDepths <==> t in before || t in c;
      }
    }

    /** The loop over the thresholds in `handleScroll`. */
    method ReportThresholds(page: Page, percent: int)
      requires Valid()
      modifies this`sent, this`trackedScrollDepths, this`reportedAt
      ensures Valid()
      ensures sent == old(sent) + DepthEvents(CrossedUpTo(old(trackedScrollDepths), percent, |ScrollThresholds|), page)
      ensures forall t :: t in trackedScrollDepths <==>
        t in old(trackedScrollDepths) || t in CrossedUpTo(old(trackedScrollDepths), percent, |ScrollThresholds|)
    {
      ghost var before := trackedScrollDepths;
      var k := 0;
      while k < |ScrollThresholds|
        invariant 0 <= k <= |ScrollThresholds|
        invariant Valid()
        invariant sent == old(sent) + DepthEvents(CrossedUpTo(before, percent, k), page)
        invariant forall t :: t in trackedScrollDepths <==> t in before || t in CrossedUpTo(before, percent, k)
      {
        ghost var c := CrossedUpTo(before, percent, k);
        var threshold := ScrollThresholds[k];
        assert threshold in trackedScrollDepths <==> threshold in before by {
          CrossedUpToMembers(before, percent, k);
          assert forall i :: 0 <= i < k ==> ScrollThresholds[i] < threshold;
        }
        if percent >= threshold && threshold !in trackedScrollDepths {
          ReportDepth(threshold, page);
          assert sent == old(sent) + DepthEvents(c + [threshold], page) by {
            DepthEventsAppend(c, [threshold], page);
          }
        }
        k := k + 1;
      }
    }

    /** Marks `threshold` as reported on this page and sends it. */
    method ReportDepth(threshold: int, page: Page)
      requires Valid() && threshold in ScrollThresholds && threshold !in trackedScrollDepths
      modifies this`sent, this`trackedScrollDepths, this`reportedAt
      ensures Valid()
      ensures sent == old(sent) + [ScrollDepth(threshold, page.pathname, page.title)]
      ensures trackedScrollDepths == old(trackedScrollDepths) + {threshold}
    {
      reportedAt := reportedAt[threshold := |sent|];
      trackedScrollDepths := trackedScrollDepths + {threshold};
      sent := sent + [ScrollDepth(threshold, page.pathname, page.title)];
    }

    /** A scroll event: every registered scroll listener runs `handleScroll`;
        after the first, the thresholds are already tracked and nothing more
        is sent. */
    method OnScroll(page: Page, scrollTop: real, docHeight: real, winHeight: real)
      requires Valid()
      modifies this`sent, this`trackedScrollDepths, this`reportedAt
      ensures Valid()
      ensures ScrollListener !in cleanupFunctions || ScrollPercent(scrollTop, docHeight, winHeight).None? ==>
        sent == old(sent) && trackedScrollDepths == old(trackedScrollDepths)
      ensures ScrollListener in cleanupFunctions && ScrollPercent(scrollTop, docHeight, winHeight).Some? ==>
        && sent == old(sent) + DepthEvents(Crossed(old(trackedScrollDepths), ScrollPercent(scrollTop, docHeight, winHeight).value), page)
        && trackedScrollDepths == old(trackedScrollDepths)
             + (set t | t in Crossed(old(trackedScrollDepths), ScrollPercent(scrollTop, docHeight, winHeight).value))
    {
      var p := ScrollPercent(scrollTop, docHeight, winHeight);
      ghost var once := if p.Some? then Crossed(old(trackedScrollDepths), p.value) else [];
      var listeners := cleanupFunctions;
      var k := 0;
      while k < |listeners|
        invariant 0 <= k <= |listeners|
        invariant Valid()
        invariant ScrollListener !in listeners[..k] || p.None? ==>
          sent == old(sent) && trackedScrollDepths == old(trackedScrollDepths)
        invariant ScrollListener in listeners[..k] && p.Some? ==>
          sent == old(sent) + DepthEvents(once, page)
          && trackedScrollDepths == old(trackedScrollDepths) + (set t | t in once)
      {
        assert listeners[..k + 1] == listeners[..k] + [listeners[k]];
        if listeners[k] == ScrollListener {
          if p.Some? && ScrollListener in listeners[..k] {
            CrossedAgain(old(trackedScrollDepths), p.value);
          }
          HandleScroll(page, scrollTop, docHeight, winHeight);
        }
        k := k + 1;
      }
      assert listeners[..k] == listeners;
    }

    /** A time-on-page timer fires: while the page is visible it reports the
        delay and the path of the page that set it. A timeout fires once, so
        the timer is no longer pending afterwards. */
    method OnTimer(k: nat, visible: bool)
      requires Valid() && k < |timeOnPageTimers|
      modifies this`sent, this`timeOnPageTimers
      ensures Valid()
      ensures sent == old(sent) + (if visible then [TimeOnPage(old(timeOnPageTimers[k]).seconds, old(timeOnPageTimers[k]).pagePath)] else [])
      ensures timeOnPageTimers == old(timeOnPageTimers[..k] + timeOnPageTimers[k + 1..])
    {
      var timer := timeOnPageTimers[k];
      if visible {
        sent := sent + [TimeOnPage(timer.seconds, timer.pagePath)];
      }
      timeOnPageTimers := timeOnPageTimers[..k] + timeOnPageTimers[k + 1..];
    }
  }

  /** However often the reader scrolls, no threshold is reported twice on
      the same page. */
  lemma DepthsAtMostOnce(o: AnalyticsOrchestrator, i: nat, j: nat)
    requires o.Valid()
    requires o.pageStart <= i < j < |o.sent| && o.sent[i].ScrollDepth? && o.sent[j].ScrollDepth?
    ensures o.sent[i].percentScrolled != o.sent[j].percentScrolled
    ensures o.sent[i].percentScrolled in ScrollThresholds
  {
  }
}
