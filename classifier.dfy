/** The event classifier (github-daily-summary.py, lines 35-57): drops events
    whose timestamp does not parse or lies outside the day, then routes each
    kept event to the timeline of its pull request, to the ungated list of
    PR comments, or to the general events. */
module Classifier {
  import opened Events
  import opened Timeline

  /** What one raw event contributes to the day: nothing when its timestamp
      does not parse or lies outside the inclusive window. */
  function Admit(e: Event, dayStart: int): (r: seq<Timed>)
    ensures r != [] <==> e.createdAt.Some? && InWindow(e.createdAt.value, dayStart)
    ensures r != [] ==> r == [Timed(e.createdAt.value, e.payload)]
  {
    match e.createdAt
    case None => []
    case Some(t) => if InWindow(t, dayStart) then [Timed(t, e.payload)] else []
  }

  /** The kept events of the day, in fetch order. */
  function Kept(events: seq<Event>, dayStart: int): (ts: seq<Timed>)
    ensures |ts| <= |events|
    ensures forall x | x in ts :: InWindow(x.time, dayStart)
  {
    if events == [] then []
    else Kept(events[..|events| - 1], dayStart) + Admit(events[|events| - 1], dayStart)
  }

  /** Kept events are exactly the parsed in-window ones, with time and payload unchanged. */
  lemma {:induction false} KeptMembership(events: seq<Event>, dayStart: int, x: Timed)
    ensures x in Kept(events, dayStart) <==>
              exists e | e in events :: e.createdAt == Some(x.time) && InWindow(x.time, dayStart)
                                        && e.payload == x.payload
  {
    if events != [] {
      var init, last := events[..|events| - 1], events[|events| - 1];
      assert events == init + [last];
      KeptMembership(init, dayStart, x);
      if x in Kept(events, dayStart) && x !in Kept(init, dayStart) {
        assert last.createdAt == Some(x.time);
      }
      if exists e | e in events :: e.createdAt == Some(x.time) && InWindow(x.time, dayStart)
                                   && e.payload == x.payload {
        var e :| e in events && e.createdAt == Some(x.time) && InWindow(x.time, dayStart)
                 && e.payload == x.payload;
        if e != last {
          assert e in init;
        } else {
          assert Admit(last, dayStart) == [x];
        }
      }
    }
  }

  lemma {:induction false} KeptAppend(a: seq<Event>, b: seq<Event>, dayStart: int)
    ensures Kept(a + b, dayStart) == Kept(a, dayStart) + Kept(b, dayStart)
    decreases |b|
  {
    if b == [] {
      assert a + b == a;
    } else {
      var init := b[..|b| - 1];
      assert (a + b)[..|a + b| - 1] == a + init;
      assert (a + b)[|a + b| - 1] == b[|b| - 1];
      KeptAppend(a, init, dayStart);
    }
  }

  /** The kept events of a prefix one event longer. */
  lemma KeptStep(events: seq<Event>, i: nat, dayStart: int)
    requires i < |events|
    ensures var e := events[i];
            Kept(events[..i + 1], dayStart) ==
              if e.createdAt.Some? && InWindow(e.createdAt.value, dayStart)
              then Kept(events[..i], dayStart) + [Timed(e.createdAt.value, e.payload)]
              else Kept(events[..i], dayStart)
  {
    assert events[..i + 1][..i] == events[..i];
  }

  /** A dropped event, on its own, keeps nothing. */
  lemma KeptDropped(e: Event, dayStart: int)
    requires e.createdAt.None? || !InWindow(e.createdAt.value, dayStart)
    ensures Kept([e], dayStart) == []
  {
    KeptStep([e], 0, dayStart);
    assert [e][..1] == [e];
  }

  /** An event that does not parse, or lies outside the day, changes nothing. */
  lemma DroppedEventIsInvisible(a: seq<Event>, e: Event, b: seq<Event>, dayStart: int)
    requires e.createdAt.None? || !InWindow(e.createdAt.value, dayStart)
    ensures Kept(a + [e] + b, dayStart) == Kept(a + b, dayStart)
  {
    KeptDropped(e, dayStart);
    KeptAppend(a, [e], dayStart);
    assert Kept(a + [e], dayStart) == Kept(a, dayStart);
    KeptAppend(a + [e], b, dayStart);
    KeptAppend(a, b, dayStart);
  }

  /** Events that belong to no pull request. */
  function IsGeneral(x: Timed): bool
  {
    PrKey(x.payload).None?
  }

  /** Issue comments on pull requests. */
  function IsPrCommentEvent(x: Timed): bool
  {
    IsPrComment(x.payload)
  }

  /** Events filed under PR key `k`. */
  function KeyIs(k: Url): Timed -> bool
  {
    (x: Timed) => PrKey(x.payload) == Some(k)
  }

  /** The kept events of one pull request, in fetch order (`pr_events[k]`). */
  function PrTimeline(ts: seq<Timed>, k: Url): seq<Timed>
  {
    Filter(ts, KeyIs(k))
  }

  /** The PR keys in the order they were first seen (the iteration order of `pr_events`). */
  function KeysOf(ts: seq<Timed>): (ks: seq<Url>)
    ensures Distinct(ks)
  {
    if ts == [] then []
    else
      var ks := KeysOf(ts[..|ts| - 1]);
      match PrKey(ts[|ts| - 1].payload)
      case Some(k) => if k in ks then ks else ks + [k]
      case None => ks
  }

  /** `pr_events` as a map from PR key to timeline. */
  function Timelines(ts: seq<Timed>): map<Url, seq<Timed>>
  {
    map k | k in KeysOf(ts) :: PrTimeline(ts, k)
  }

  /** Appending one kept event lists its key if it was not yet listed. */
  lemma KeysOfSnoc(ts: seq<Timed>, x: Timed)
    ensures KeysOf(ts + [x]) ==
              match PrKey(x.payload)
              case Some(k) => if k in KeysOf(ts) then KeysOf(ts) else KeysOf(ts) + [k]
              case None => KeysOf(ts)
  {
    assert (ts + [x])[..|ts|] == ts;
  }

  /** How appending one kept event changes every routing result. */
  lemma RouteStep(ts: seq<Timed>, x: Timed)
    ensures KeysOf(ts + [x]) ==
              match PrKey(x.payload)
              case Some(k) => if k in KeysOf(ts) then KeysOf(ts) else KeysOf(ts) + [k]
              case None => KeysOf(ts)
    ensures forall k :: PrTimeline(ts + [x], k) ==
                          PrTimeline(ts, k) + (if PrKey(x.payload) == Some(k) then [x] else [])
    ensures Filter(ts + [x], IsGeneral) == Filter(ts, IsGeneral) + (if IsGeneral(x) then [x] else [])
    ensures Filter(ts + [x], IsPrCommentEvent) ==
              Filter(ts, IsPrCommentEvent) + (if IsPrCommentEvent(x) then [x] else [])
  {
    KeysOfSnoc(ts, x);
    forall k
      ensures PrTimeline(ts + [x], k) ==
                PrTimeline(ts, k) + (if PrKey(x.payload) == Some(k) then [x] else [])
    {
      FilterSnoc(ts, x, KeyIs(k));
    }
    FilterSnoc(ts, x, IsGeneral);
    FilterSnoc(ts, x, IsPrCommentEvent);
  }

  /** A key is listed exactly when its timeline is non-empty. */
  lemma {:induction false} KeysOfMembership(ts: seq<Timed>, k: Url)
    ensures k in KeysOf(ts) <==> PrTimeline(ts, k) != []
  {
    if ts != [] {
      var init, x := ts[..|ts| - 1], ts[|ts| - 1];
      assert ts == init + [x];
      KeysOfMembership(init, k);
      RouteStep(init, x);
    }
  }

  /** Every kept event lands in exactly one place: the general list, or the
      timeline of its own key; PR comments are also copied to the ungated list. */
  lemma RoutingIsExclusive(ts: seq<Timed>, x: Timed)
    requires x in ts
    ensures x in Filter(ts, IsGeneral) <==> PrKey(x.payload).None?
    ensures forall k :: x in PrTimeline(ts, k) <==> PrKey(x.payload) == Some(k)
    ensures x in Filter(ts, IsPrCommentEvent) <==> IsPrComment(x.payload)
    ensures IsPrComment(x.payload) ==> x in PrTimeline(ts, x.payload.prUrl)
  {
    FilterMembership(ts, IsGeneral, x);
    FilterMembership(ts, IsPrCommentEvent, x);
    forall k
      ensures x in PrTimeline(ts, k) <==> PrKey(x.payload) == Some(k)
    {
      FilterMembership(ts, KeyIs(k), x);
    }
  }

  /** Every timeline of `Timelines(ts)` is non-empty and holds only its own key's events. */
  lemma TimelinesArePure(ts: seq<Timed>)
    ensures forall k | k in Timelines(ts) :: Timelines(ts)[k] != []
    ensures forall k, x | k in Timelines(ts) && x in Timelines(ts)[k] :: PrKey(x.payload) == Some(k)
  {
    forall k | k in Timelines(ts)
      ensures Timelines(ts)[k] != []
    {
      KeysOfMembership(ts, k);
    }
  }

  /** The four results of classification agree with the routing functions on `ts`. */
  ghost predicate RoutedAs(ts: seq<Timed>, keys: seq<Url>, prEvents: map<Url, seq<Timed>>,
                           general: seq<Timed>, allPrComments: seq<Timed>)
  {
    && keys == KeysOf(ts)
    && (forall k :: k in prEvents <==> k in keys)
    && (forall k | k in prEvents :: prEvents[k] == PrTimeline(ts, k))
    && general == Filter(ts, IsGeneral)
    && allPrComments == Filter(ts, IsPrCommentEvent)
  }

  /** Appending a PR event to `pr_events[key]` (a defaultdict) keeps the routing exact. */
  lemma RoutedKeyedStep(ts: seq<Timed>, keys: seq<Url>, prEvents: map<Url, seq<Timed>>,
                        general: seq<Timed>, allPrComments: seq<Timed>, x: Timed, key: Url,
                        keys': seq<Url>, prEvents': map<Url, seq<Timed>>, allPrComments': seq<Timed>)
    requires RoutedAs(ts, keys, prEvents, general, allPrComments)
    requires PrKey(x.payload) == Some(key)
    requires keys' == if key in prEvents then keys else keys + [key]
    requires prEvents' == prEvents[key := (if key in prEvents then prEvents[key] else []) + [x]]
    requires allPrComments' == if IsPrComment(x.payload) then allPrComments + [x] else allPrComments
    ensures RoutedAs(ts + [x], keys', prEvents', general, allPrComments')
  {
    KeysOfSnoc(ts, x);
    KeysOfMembership(ts, key);
    forall k | k in prEvents'
      ensures prEvents'[k] == PrTimeline(ts + [x], k)
    {
      FilterSnoc(ts, x, KeyIs(k));
      if k != key {
        assert prEvents'[k] == prEvents[k] == PrTimeline(ts, k);
      } else if key !in prEvents {
        assert PrTimeline(ts, k) == [];
      }
    }
    FilterSnoc(ts, x, IsGeneral);
    FilterSnoc(ts, x, IsPrCommentEvent);
  }

  /** Appending a general event keeps the routing exact. */
  lemma RoutedGeneralStep(ts: seq<Timed>, keys: seq<Url>, prEvents: map<Url, seq<Timed>>,
                          general: seq<Timed>, allPrComments: seq<Timed>, x: Timed)
    requires RoutedAs(ts, keys, prEvents, general, allPrComments)
    requires PrKey(x.payload).None?
    ensures RoutedAs(ts + [x], keys, prEvents, general + [x], allPrComments)
  {
    RouteStep(ts, x);
  }

  /** Files one kept event (lines 46-57): PR and review events, and comments on
      pull requests, are appended to `pr_events[key]`; PR comments also to
      `all_pr_comments`; everything else to `general_events`. */
  method Route(keys: seq<Url>, prEvents: map<Url, seq<Timed>>, general: seq<Timed>,
               allPrComments: seq<Timed>, x: Timed, ghost ts: seq<Timed>)
    returns (keys': seq<Url>, prEvents': map<Url, seq<Timed>>, general': seq<Timed>,
             allPrComments': seq<Timed>)
    requires RoutedAs(ts, keys, prEvents, general, allPrComments)
    ensures RoutedAs(ts + [x], keys', prEvents', general', allPrComments')
  {
    keys', prEvents', general', allPrComments' := keys, prEvents, general, allPrComments;
    var key: Url := "";
    var routed := true;
    if x.payload.PullRequest? {
      key := x.payload.url;
    } else if x.payload.Review? {
      key := x.payload.url;
    } else if x.payload.IssueComment? && IsPullUrl(x.payload.issueUrl) {
      key := x.payload.prUrl;
      allPrComments' := allPrComments + [x];
    } else {
      routed := false;
      general' := general + [x];
    }
    if routed {
      if key in prEvents {
        prEvents' := prEvents[key := prEvents[key] + [x]];
      } else {
        keys' := keys + [key];
        prEvents' := prEvents[key := [x]];
        assert [] + [x] == [x];
      }
      RoutedKeyedStep(ts, keys, prEvents, general, allPrComments, x, key, keys', prEvents', allPrComments');
    } else {
      RoutedGeneralStep(ts, keys, prEvents, general, allPrComments, x);
    }
  }

  /** Routing all kept events yields the routing functions of the whole day. */
  lemma RoutedDone(events: seq<Event>, dayStart: int, ts: seq<Timed>, keys: seq<Url>,
                   prEvents: map<Url, seq<Timed>>, general: seq<Timed>, allPrComments: seq<Timed>)
    requires ts == Kept(events[..|events|], dayStart)
    requires RoutedAs(ts, keys, prEvents, general, allPrComments)
    ensures ts == Kept(events, dayStart)
    ensures prEvents == Timelines(ts)
  {
    assert events[..|events|] == events;
    assert prEvents.Keys == Timelines(ts).Keys;
  }

  /** The classification loop of lines 39-57. */
  method Classify(events: seq<Event>, dayStart: int)
    returns (keys: seq<Url>, prEvents: map<Url, seq<Timed>>, general: seq<Timed>,
             allPrComments: seq<Timed>)
    ensures keys == KeysOf(Kept(events, dayStart))
    ensures prEvents == Timelines(Kept(events, dayStart))
    ensures general == Filter(Kept(events, dayStart), IsGeneral)
    ensures allPrComments == Filter(Kept(events, dayStart), IsPrCommentEvent)
  {
    keys, prEvents, general, allPrComments := [], map[], [], [];
    ghost var ts: seq<Timed> := [];
    for i := 0 to |events|
      invariant ts == Kept(events[..i], dayStart)
      invariant RoutedAs(ts, keys, prEvents, general, allPrComments)
    {
      var e := events[i];
      KeptStep(events, i, dayStart);
      match e.createdAt
      case None =>
      case Some(t) =>
        if dayStart <= t <= EndOfDay(dayStart) {
          var x := Timed(t, e.payload);
          keys, prEvents, general, allPrComments :=
            Route(keys, prEvents, general, allPrComments, x, ts);
          ts := ts + [x];
        }
    }
    RoutedDone(events, dayStart, ts, keys, prEvents, general, allPrComments);
  }
}
