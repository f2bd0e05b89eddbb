/** One day of `get_github_daily_summary` (github-daily-summary.py, lines
    11-145) with the fetch of the event feed abstracted to its outcome:
    classify, aggregate, collect the general comments, then return the
    summary or its markdown text. */
module DailySummary {
  import opened Events
  import opened Timeline
  import opened Classifier
  import opened Aggregator
  import opened GeneralComments
  import opened Renderer
  import opened DayRange

  /** The outcome of fetching and decoding one page of the user's events. */
  datatype Fetch = Ok(events: seq<Event>) | Err(message: string)

  /** What the function returns: markdown text, the summary itself, or an error string. */
  datatype Report = Text(markdown: string) | Structured(summary: Summary) | Failed(message: string)

  /** The summary and title map for the events of one day. */
  function DayTally(events: seq<Event>, dayStart: int): Tally
  {
    var ts := Kept(events, dayStart);
    var st := Aggregated(KeysOf(ts), Timelines(ts));
    var general := CommentTexts(SortByTime(Filter(Filter(ts, IsGeneral), IsIssueCommentEvent)));
    st.(summary := st.summary.(generalComments := general))
  }

  /** The result for one day. */
  function DayReport(fetch: Fetch, dayStart: int, format: OutputFormat, summaryMode: bool): Report
  {
    match fetch
    case Err(message) => Failed(message)
    case Ok(events) =>
      var st := DayTally(events, dayStart);
      if format == OutputFormat.Markdown then
        Text(Renderer.Markdown(st.summary, st.titles, Filter(Kept(events, dayStart), IsPrCommentEvent), summaryMode))
      else Structured(st.summary)
  }

  /** Lines 35-145 for one day. */
  method DailySummaryFor(fetch: Fetch, dayStart: int, format: OutputFormat, summaryMode: bool)
    returns (r: Report)
    ensures r == DayReport(fetch, dayStart, format, summaryMode)
  {
    match fetch
    case Err(message) =>
      r := Failed(message);
    case Ok(events) =>
      var keys, prEvents, general, allPrComments := Classify(events, dayStart);
      var st := Aggregate(keys, prEvents);
      var comments := CollectGeneralComments(general);
      var summary := st.summary.(generalComments := comments);
      if format == OutputFormat.Markdown {
        var md := RenderMarkdown(summary, st.titles, allPrComments, summaryMode);
        r := Text(md);
      } else {
        r := Structured(summary);
      }
  }

  /** Classification hands the aggregator what it expects: distinct keys, each
      with a non-empty timeline of its own events. */
  lemma ClassifiedIsWellGrouped(ts: seq<Timed>)
    ensures WellGrouped(KeysOf(ts), Timelines(ts))
  {
    TimelinesArePure(ts);
  }

  /** An event whose timestamp does not parse, or lies outside the day, changes
      nothing in the day's result (lines 40-45). */
  lemma DroppedEventChangesNothing(a: seq<Event>, e: Event, b: seq<Event>, dayStart: int,
                                   format: OutputFormat, summaryMode: bool)
    requires e.createdAt.None? || !InWindow(e.createdAt.value, dayStart)
    ensures DayReport(Ok(a + [e] + b), dayStart, format, summaryMode) ==
            DayReport(Ok(a + b), dayStart, format, summaryMode)
  {
    DroppedEventIsInvisible(a, e, b, dayStart);
  }

  /** First event wins, end to end: for a PR key seen on the day, the kept event
      of that key with the earliest time, ties going to the one fetched first,
      decides the key's single entry. */
  lemma EarliestEventDecides(events: seq<Event>, dayStart: int, k: Url)
    requires PrTimeline(Kept(events, dayStart), k) != []
    ensures var ts := Kept(events, dayStart);
            var first := SortByTime(PrTimeline(ts, k))[0];
            var s := DayTally(events, dayStart).summary;
            && first in ts && PrKey(first.payload) == Some(k)
            && (forall x | x in ts && PrKey(x.payload) == Some(k) :: first.time <= x.time)
            && (var tied := Filter(PrTimeline(ts, k), AtTime(first.time)); tied != [] && first == tied[0])
            && (k in Urls(s.prsOpened) <==> FateOf(first.payload) == OpenedFate)
            && (k in Urls(s.prsClosed) <==> FateOf(first.payload) == ClosedFate)
            && (k in Urls(s.prsReviewed) <==> FateOf(first.payload) == ReviewedFate)
            && (k in s.commentKeys <==> FateOf(first.payload) == CommentedFate)
            && (k in s.prComments <==> FateOf(first.payload) == CommentedFate)
            && (k in s.prComments ==> s.prComments[k] == [CommentText(BodyOf(first.payload))])
  {
    var ts := Kept(events, dayStart);
    var tl := PrTimeline(ts, k);
    KeysOfMembership(ts, k);
    SortedHeadIsEarliest(tl);
    var first := SortByTime(tl)[0];
    FilterMembership(ts, KeyIs(k), first);
    forall x | x in ts && PrKey(x.payload) == Some(k)
      ensures first.time <= x.time
    {
      FilterMembership(ts, KeyIs(k), x);
    }
    ClassifiedIsWellGrouped(ts);
    FirstEventPlacesKey(KeysOf(ts), Timelines(ts), k);
    assert Timelines(ts)[k] == tl;
  }

  /** Only PR keys seen on the day appear in the PR buckets, each once. */
  lemma OnlySeenKeysAppear(events: seq<Event>, dayStart: int, u: Url)
    requires u in Claimed(DayTally(events, dayStart).summary)
    ensures PrTimeline(Kept(events, dayStart), u) != []
    ensures multiset(Claimed(DayTally(events, dayStart).summary))[u] == 1
  {
    var ts := Kept(events, dayStart);
    var st := Aggregated(KeysOf(ts), Timelines(ts));
    assert Claimed(DayTally(events, dayStart).summary) == Claimed(st.summary);
    ClassifiedIsWellGrouped(ts);
    ClaimedKeysAreWalked(KeysOf(ts), Timelines(ts), u);
    KeysOfMembership(ts, u);
  }

  /** A PR opened at time 10 and commented on at time 20, on the day starting at 0. */
  function OpenedThenCommentedEvents(): seq<Event>
  {
    [Event(Some(10), PullRequest("opened", "/pull/1", "T")),
     Event(Some(20), IssueComment("/pull/1", "/pull/1", "T", "nice"))]
  }

  /** Both events of the example lie inside the day. */
  lemma OpenedThenCommentedKept()
    ensures Kept(OpenedThenCommentedEvents(), 0) ==
            [Timed(10, PullRequest("opened", "/pull/1", "T")), Timed(20, IssueComment("/pull/1", "/pull/1", "T", "nice"))]
  {
    var events := OpenedThenCommentedEvents();
    KeptAppend([events[0]], [events[1]], 0);
    assert events == [events[0]] + [events[1]];
    assert Kept([events[0]], 0) == [Timed(10, events[0].payload)];
    assert Kept([events[1]], 0) == [Timed(20, events[1].payload)];
  }

  /** Both events belong to `/pull/1` and are already in time order. */
  lemma OpenedThenCommentedTimeline()
    ensures var ts := [Timed(10, PullRequest("opened", "/pull/1", "T")),
                       Timed(20, IssueComment("/pull/1", "/pull/1", "T", "nice"))];
            SortByTime(PrTimeline(ts, "/pull/1")) == ts
  {
    var k := "/pull/1";
    var ts := [Timed(10, PullRequest("opened", k, "T")), Timed(20, IssueComment(k, k, "T", "nice"))];
    assert IsPullUrl(k) by {
      assert OccursAt(k, "/pull/", 0);
      HasSubstringAt(k, "/pull/");
    }
    assert PrKey(ts[0].payload) == Some(k) && PrKey(ts[1].payload) == Some(k);
    FilterAll(ts, KeyIs(k));
    assert Sorted(ts);
    SortSortedIsIdentity(ts);
  }

  /** No key other than `/pull/1` has an event in the example. */
  lemma OpenedThenCommentedOneKey(u: Url)
    requires u != "/pull/1"
    ensures PrTimeline([Timed(10, PullRequest("opened", "/pull/1", "T")),
                        Timed(20, IssueComment("/pull/1", "/pull/1", "T", "nice"))], u) == []
  {
    var k := "/pull/1";
    var ts := [Timed(10, PullRequest("opened", k, "T")), Timed(20, IssueComment(k, k, "T", "nice"))];
    assert IsPullUrl(k) by {
      assert OccursAt(k, "/pull/", 0);
      HasSubstringAt(k, "/pull/");
    }
    assert PrKey(ts[0].payload) == Some(k) && PrKey(ts[1].payload) == Some(k);
    FilterNone(ts, KeyIs(u));
  }

  /** `pr_comments` has exactly the keys listed in `commentKeys`. */
  lemma PrCommentsFollowKeys(events: seq<Event>, dayStart: int)
    ensures var s := DayTally(events, dayStart).summary;
            forall u :: u in s.prComments <==> u in s.commentKeys
  {
    var ts := Kept(events, dayStart);
    ClassifiedIsWellGrouped(ts);
    AggregatedIsConsistent(KeysOf(ts), Timelines(ts));
  }

  /** In the example, the opening event decides `/pull/1`. */
  lemma OpenedThenCommentedDecided(events: seq<Event>, dayStart: int)
    requires Kept(events, dayStart) ==
             [Timed(10, PullRequest("opened", "/pull/1", "T")), Timed(20, IssueComment("/pull/1", "/pull/1", "T", "nice"))]
    ensures var s := DayTally(events, dayStart).summary;
            "/pull/1" in Urls(s.prsOpened) && "/pull/1" !in s.commentKeys
  {
    var k := "/pull/1";
    OpenedThenCommentedTimeline();
    var first := SortByTime(PrTimeline(Kept(events, dayStart), k))[0];
    assert first == Timed(10, PullRequest("opened", k, "T"));
    EarliestEventDecides(events, dayStart, k);
  }

  /** A PR opened before it is commented on is listed as opened and gets no
      `pr_comments` entry: the opening event marks it processed (line 84), so
      line 93 skips the comment, and `pr_comments` stays empty. */
  lemma OpenedThenCommented(events: seq<Event>, dayStart: int)
    requires Kept(events, dayStart) ==
             [Timed(10, PullRequest("opened", "/pull/1", "T")), Timed(20, IssueComment("/pull/1", "/pull/1", "T", "nice"))]
    ensures var s := DayTally(events, dayStart).summary;
            && "/pull/1" in Urls(s.prsOpened)
            && s.commentKeys == [] && s.prComments == map[]
  {
    var s := DayTally(events, dayStart).summary;
    OpenedThenCommentedDecided(events, dayStart);
    if s.commentKeys != [] {
      var u := s.commentKeys[0];
      assert u in Claimed(s);
      OnlySeenKeysAppear(events, dayStart, u);
      OpenedThenCommentedOneKey(u);
      assert false;
    }
    PrCommentsFollowKeys(events, dayStart);
    assert s.prComments.Keys == {};
  }

  /** The example day itself: the PR is listed as opened, `pr_comments` is
      empty, and so the markdown output has no PR comment section in either
      mode (line 119), although `all_pr_comments` holds the comment. */
  lemma OpenedThenCommentedDay()
    ensures var events := OpenedThenCommentedEvents();
            var st := DayTally(events, 0);
            var all := Filter(Kept(events, 0), IsPrCommentEvent);
            && "/pull/1" in Urls(st.summary.prsOpened)
            && st.summary.commentKeys == [] && st.summary.prComments == map[]
            && (forall m: bool :: CompactHeader !in MarkdownLines(st.summary, st.titles, all, m)
                                  && DetailedHeader !in MarkdownLines(st.summary, st.titles, all, m))
  {
    var events := OpenedThenCommentedEvents();
    var st := DayTally(events, 0);
    var all := Filter(Kept(events, 0), IsPrCommentEvent);
    OpenedThenCommentedKept();
    OpenedThenCommented(events, 0);
    forall m: bool
      ensures CompactHeader !in MarkdownLines(st.summary, st.titles, all, m)
              && DetailedHeader !in MarkdownLines(st.summary, st.titles, all, m)
    {
      HeadersAreGated(st.summary, st.titles, all, m);
    }
  }
}
