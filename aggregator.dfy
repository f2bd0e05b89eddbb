/** The timeline aggregator (github-daily-summary.py, lines 59-97): walks each
    PR's timeline in stable time order and lets the first significant event
    decide the PR's single entry in the summary. */
module Aggregator {
  import opened Events
  import opened Timeline

  /** A rendered PR reference `[title](url)`; kept as a pair so that the URL
      can be named in contracts. */
  datatype PrRef = PrRef(title: string, url: Url)

  /** The text the source stores for a PR reference. */
  function Format(r: PrRef): string
  {
    "[" + r.title + "](" + r.url + ")"
  }

  /** The text the source stores for a comment. */
  function CommentText(body: string): string
  {
    "Comment: " + body
  }

  /** The `summary` dictionary. `pr_comments` is an insertion-ordered
      defaultdict: its key order is `commentKeys`, its contents `prComments`. */
  datatype Summary = Summary(prsOpened: seq<PrRef>, prsClosed: seq<PrRef>, prsReviewed: seq<PrRef>,
                             commentKeys: seq<Url>, prComments: map<Url, seq<string>>,
                             generalComments: seq<string>)

  /** The summary together with the bookkeeping of lines 67-69. */
  datatype Tally = Tally(summary: Summary, titles: map<Url, string>,
                         processed: set<Url>, openedUrls: set<Url>)

  const Empty: Tally := Tally(Summary([], [], [], [], map[], []), map[], {}, {})

  /** One iteration of the inner loop (lines 74-97). */
  function Step(st: Tally, x: Timed): Tally
  {
    var s := st.summary;
    match x.payload
    case PullRequest(action, url, title) =>
      if url in st.processed then st
      else
        var titles := st.titles[url := title];
        var processed := st.processed + {url};
        if action == "opened" then
          Tally(s.(prsOpened := s.prsOpened + [PrRef(title, url)]), titles, processed, st.openedUrls + {url})
        else if action == "closed" then
          Tally(s.(prsClosed := s.prsClosed + [PrRef(title, url)]), titles, processed, st.openedUrls)
        else
          Tally(s, titles, processed, st.openedUrls)
    case Review(url, title) =>
      if url !in st.processed && url !in st.openedUrls then
        st.(summary := s.(prsReviewed := s.prsReviewed + [PrRef(title, url)]),
            processed := st.processed + {url})
      else st
    case IssueComment(issueUrl, prUrl, title, body) =>
      if IsPullUrl(issueUrl) && prUrl !in st.processed then
        var earlier := if prUrl in s.prComments then s.prComments[prUrl] else [];
        var keys := if prUrl in s.prComments then s.commentKeys else s.commentKeys + [prUrl];
        Tally(s.(commentKeys := keys, prComments := s.prComments[prUrl := earlier + [CommentText(body)]]),
              st.titles[prUrl := title], st.processed + {prUrl}, st.openedUrls)
      else st
    case Other(_) => st
  }

  /** The inner loop over one timeline. */
  function Walk(st: Tally, es: seq<Timed>): Tally
  {
    if es == [] then st else Step(Walk(st, es[..|es| - 1]), es[|es| - 1])
  }

  /** The outer loop over `pr_events.items()`, each timeline sorted first (line 72). */
  function Aggregated(keys: seq<Url>, tls: map<Url, seq<Timed>>): Tally
    requires forall k | k in keys :: k in tls
  {
    if keys == [] then Empty
    else Walk(Aggregated(keys[..|keys| - 1], tls), SortByTime(tls[keys[|keys| - 1]]))
  }

  function Urls(refs: seq<PrRef>): (us: seq<Url>)
    ensures |us| == |refs| && forall i | 0 <= i < |refs| :: us[i] == refs[i].url
  {
    if refs == [] then [] else Urls(refs[..|refs| - 1]) + [refs[|refs| - 1].url]
  }

  /** Every PR key that has an entry in one of the four PR buckets. */
  function Claimed(s: Summary): seq<Url>
  {
    Urls(s.prsOpened) + Urls(s.prsClosed) + Urls(s.prsReviewed) + s.commentKeys
  }

  /** Which bucket the first event of a timeline sends its key to. */
  datatype Fate = OpenedFate | ClosedFate | ReviewedFate | CommentedFate | Untracked

  function FateOf(p: Payload): Fate
  {
    match p
    case PullRequest(action, _, _) =>
      if action == "opened" then OpenedFate else if action == "closed" then ClosedFate else Untracked
    case Review(_, _) => ReviewedFate
    case IssueComment(_, _, _, _) => CommentedFate
    case Other(_) => Untracked
  }

  function TitleOf(p: Payload): string
  {
    if p.Other? then "" else p.title
  }

  function BodyOf(p: Payload): string
  {
    if p.IssueComment? then p.body else ""
  }

  /** An event of an already processed key changes nothing. */
  lemma StepIgnoresProcessed(st: Tally, x: Timed, k: Url)
    requires PrKey(x.payload) == Some(k) && k in st.processed
    ensures Step(st, x) == st
  {
  }

  /** An event of a general kind changes nothing. */
  lemma StepIgnoresGeneral(st: Tally, x: Timed)
    requires PrKey(x.payload).None?
    ensures Step(st, x) == st
  {
  }

  /** The summary `s'` is `s` with key `k` added to the bucket the fate of `p` names. */
  ghost predicate SummaryExtends(s: Summary, s': Summary, k: Url, p: Payload)
  {
    var fate, ref := FateOf(p), PrRef(TitleOf(p), k);
    && s'.prsOpened == (if fate == OpenedFate then s.prsOpened + [ref] else s.prsOpened)
    && s'.prsClosed == (if fate == ClosedFate then s.prsClosed + [ref] else s.prsClosed)
    && s'.prsReviewed == (if fate == ReviewedFate then s.prsReviewed + [ref] else s.prsReviewed)
    && s'.commentKeys == (if fate == CommentedFate then s.commentKeys + [k] else s.commentKeys)
    && s'.prComments == (if fate == CommentedFate then s.prComments[k := [CommentText(BodyOf(p))]]
                         else s.prComments)
    && s'.generalComments == s.generalComments
  }

  /** The bookkeeping of `st'` is that of `st` after key `k` is handled by `p`. */
  ghost predicate BookkeepingExtends(st: Tally, st': Tally, k: Url, p: Payload)
  {
    var fate := FateOf(p);
    && st'.processed == st.processed + {k}
    && st'.openedUrls == (if fate == OpenedFate then st.openedUrls + {k} else st.openedUrls)
    && st'.titles == (if fate == ReviewedFate then st.titles else st.titles[k := TitleOf(p)])
  }

  /** An event of an unprocessed key adds the key to exactly the bucket its
      fate names, marks it processed, and records its title unless it is a
      review. */
  lemma StepOnFresh(st: Tally, x: Timed, k: Url)
    requires PrKey(x.payload) == Some(k)
    requires k !in st.processed && st.openedUrls <= st.processed && k !in st.summary.prComments
    ensures SummaryExtends(st.summary, Step(st, x).summary, k, x.payload)
    ensures BookkeepingExtends(st, Step(st, x), k, x.payload)
  {
    if x.payload.IssueComment? {
      assert [] + [CommentText(BodyOf(x.payload))] == [CommentText(BodyOf(x.payload))];
    }
  }

  /** Every key has at most one entry across the four buckets, and every
      entry's key is processed. */
  ghost predicate ClaimsUnique(st: Tally)
  {
    var s := st.summary;
    && (forall u :: multiset(Claimed(s))[u] <= 1)
    && (forall u | u in Claimed(s) :: u in st.processed)
  }

  /** `opened_pr_urls` lists exactly the opened bucket, `pr_comments` has
      exactly the comment keys and one comment under each, and every titled
      key is processed. */
  ghost predicate BooksAgree(st: Tally)
  {
    var s := st.summary;
    && (forall u :: u in st.openedUrls <==> u in Urls(s.prsOpened))
    && (forall k :: k in s.prComments <==> k in s.commentKeys)
    && (forall k | k in s.prComments :: |s.prComments[k]| == 1)
    && (forall u | u in st.titles :: u in st.processed)
  }

  /** The invariant the bookkeeping sets maintain. */
  ghost predicate Consistent(st: Tally)
  {
    ClaimsUnique(st) && BooksAgree(st)
  }

  lemma UrlsSnoc(refs: seq<PrRef>, r: PrRef)
    ensures Urls(refs + [r]) == Urls(refs) + [r.url]
  {
    assert (refs + [r])[..|refs|] == refs;
  }

  /** The claims of a summary, bucket by bucket. */
  lemma ClaimedSplits(s: Summary)
    ensures multiset(Claimed(s)) == multiset(Urls(s.prsOpened)) + multiset(Urls(s.prsClosed))
                                    + multiset(Urls(s.prsReviewed)) + multiset(s.commentKeys)
  {
  }

  /** Adding one element to one of four bags adds it to their union. */
  lemma UnionGainsOne(o: multiset<Url>, c: multiset<Url>, r: multiset<Url>, m: multiset<Url>,
                      o': multiset<Url>, c': multiset<Url>, r': multiset<Url>, m': multiset<Url>,
                      k: Url, fate: Fate)
    requires o' == if fate == OpenedFate then o + multiset{k} else o
    requires c' == if fate == ClosedFate then c + multiset{k} else c
    requires r' == if fate == ReviewedFate then r + multiset{k} else r
    requires m' == if fate == CommentedFate then m + multiset{k} else m
    ensures o' + c' + r' + m' == if fate == Untracked then o + c + r + m else o + c + r + m + multiset{k}
  {
    match fate
    case OpenedFate => assert (o + multiset{k}) + c + r + m == o + c + r + m + multiset{k};
    case ClosedFate => assert o + (c + multiset{k}) + r + m == o + c + r + m + multiset{k};
    case ReviewedFate => assert o + c + (r + multiset{k}) + m == o + c + r + m + multiset{k};
    case CommentedFate =>
    case Untracked =>
  }

  /** A bucket of references gains the key's URL exactly when it gains the reference. */
  lemma RefClaimsStep(b: seq<PrRef>, b': seq<PrRef>, ref: PrRef, grows: bool)
    requires b' == if grows then b + [ref] else b
    ensures multiset(Urls(b')) == if grows then multiset(Urls(b)) + multiset{ref.url} else multiset(Urls(b))
  {
    if grows {
      UrlsSnoc(b, ref);
    }
  }

  /** Handling a fresh key claims it once, in the bucket its fate names. */
  lemma ClaimedExtends(s: Summary, s': Summary, k: Url, p: Payload)
    requires SummaryExtends(s, s', k, p)
    ensures multiset(Claimed(s')) ==
            if FateOf(p) == Untracked then multiset(Claimed(s)) else multiset(Claimed(s)) + multiset{k}
  {
    var fate, ref := FateOf(p), PrRef(TitleOf(p), k);
    ClaimedSplits(s);
    ClaimedSplits(s');
    RefClaimsStep(s.prsOpened, s'.prsOpened, ref, fate == OpenedFate);
    RefClaimsStep(s.prsClosed, s'.prsClosed, ref, fate == ClosedFate);
    RefClaimsStep(s.prsReviewed, s'.prsReviewed, ref, fate == ReviewedFate);
    UnionGainsOne(multiset(Urls(s.prsOpened)), multiset(Urls(s.prsClosed)),
                  multiset(Urls(s.prsReviewed)), multiset(s.commentKeys),
                  multiset(Urls(s'.prsOpened)), multiset(Urls(s'.prsClosed)),
                  multiset(Urls(s'.prsReviewed)), multiset(s'.commentKeys), k, fate);
  }

  /** A bag without repeats stays so when it gains one element it lacked. */
  lemma BagGainsFresh(before: multiset<Url>, after: multiset<Url>, k: Url, grows: bool)
    requires forall u :: before[u] <= 1
    requires before[k] == 0
    requires after == if grows then before + multiset{k} else before
    ensures forall u :: after[u] <= 1
    ensures forall u | u in after :: u == k || u in before
  {
  }

  /** Handling a fresh key claims it at most once. */
  lemma ExtendKeepsClaimsUnique(st: Tally, st': Tally, k: Url, p: Payload)
    requires ClaimsUnique(st) && k !in st.processed
    requires SummaryExtends(st.summary, st'.summary, k, p) && BookkeepingExtends(st, st', k, p)
    ensures ClaimsUnique(st')
  {
    ClaimedExtends(st.summary, st'.summary, k, p);
    ClaimGainKeepsUnique(st, st', k, FateOf(p) != Untracked);
  }

  /** Claiming one unprocessed key, and marking it processed, keeps claims unique. */
  lemma ClaimGainKeepsUnique(st: Tally, st': Tally, k: Url, grows: bool)
    requires ClaimsUnique(st) && k !in st.processed
    requires multiset(Claimed(st'.summary)) ==
             if grows then multiset(Claimed(st.summary)) + multiset{k} else multiset(Claimed(st.summary))
    requires st'.processed == st.processed + {k}
    ensures ClaimsUnique(st')
  {
    var s, s' := st.summary, st'.summary;
    assert k !in Claimed(s);
    BagGainsFresh(multiset(Claimed(s)), multiset(Claimed(s')), k, grows);
    forall u | u in Claimed(s')
      ensures u in st'.processed
    {
      assert u in multiset(Claimed(s'));
      if u != k {
        assert u in multiset(Claimed(s));
      }
    }
  }

  /** Handling a fresh key keeps the sets and maps in agreement with the buckets. */
  lemma ExtendKeepsBooksAgree(st: Tally, st': Tally, k: Url, p: Payload)
    requires BooksAgree(st)
    requires SummaryExtends(st.summary, st'.summary, k, p) && BookkeepingExtends(st, st', k, p)
    ensures BooksAgree(st')
  {
    if FateOf(p) == OpenedFate {
      UrlsSnoc(st.summary.prsOpened, PrRef(TitleOf(p), k));
    }
  }

  /** Lines 71-97: each emitting branch requires an unprocessed key and marks it. */
  lemma StepKeepsConsistent(st: Tally, x: Timed)
    requires Consistent(st)
    ensures Consistent(Step(st, x))
  {
    match PrKey(x.payload)
    case None => StepIgnoresGeneral(st, x);
    case Some(k) =>
      if k in st.processed {
        StepIgnoresProcessed(st, x, k);
      } else {
        StepOnFresh(st, x, k);
        ExtendKeepsClaimsUnique(st, Step(st, x), k, x.payload);
        ExtendKeepsBooksAgree(st, Step(st, x), k, x.payload);
      }
  }

  lemma {:induction false} WalkKeepsConsistent(st: Tally, es: seq<Timed>)
    requires Consistent(st)
    ensures Consistent(Walk(st, es))
  {
    if es != [] {
      WalkKeepsConsistent(st, es[..|es| - 1]);
      StepKeepsConsistent(Walk(st, es[..|es| - 1]), es[|es| - 1]);
    }
  }

  /** Each PR key gets at most one entry across opened, closed, reviewed and
      `pr_comments`, and each `pr_comments` value is one comment. */
  lemma {:induction false} AggregatedIsConsistent(keys: seq<Url>, tls: map<Url, seq<Timed>>)
    requires forall k | k in keys :: k in tls
    ensures Consistent(Aggregated(keys, tls))
  {
    if keys != [] {
      AggregatedIsConsistent(keys[..|keys| - 1], tls);
      WalkKeepsConsistent(Aggregated(keys[..|keys| - 1], tls), SortByTime(tls[keys[|keys| - 1]]));
    }
  }

  /** A PR counted as opened is never also counted as reviewed, closed or
      commented, and is counted as opened once. */
  lemma OpenedIsExclusive(st: Tally, u: Url)
    requires Consistent(st)
    requires u in Urls(st.summary.prsOpened)
    ensures var s := st.summary;
            u !in Urls(s.prsReviewed) && u !in Urls(s.prsClosed) && u !in s.commentKeys
            && multiset(Urls(s.prsOpened))[u] == 1
  {
    var s := st.summary;
    var o, c, r, m := Urls(s.prsOpened), Urls(s.prsClosed), Urls(s.prsReviewed), s.commentKeys;
    assert multiset(Claimed(s)) == multiset(o) + multiset(c) + multiset(r) + multiset(m);
    assert multiset(Claimed(s))[u] <= 1;
    assert multiset(o)[u] >= 1;
  }

  // ---------------------------------------------------------------------------
  // First event wins

  /** The first event of every non-empty timeline, in stable time order. */
  function FirstEvents(tls: map<Url, seq<Timed>>): (firsts: map<Url, Timed>)
    ensures forall k :: k in firsts <==> k in tls && tls[k] != []
  {
    map k | k in tls && tls[k] != [] :: SortByTime(tls[k])[0]
  }

  /** The shape `pr_events` has after classification. */
  ghost predicate WellGrouped(keys: seq<Url>, tls: map<Url, seq<Timed>>)
  {
    && Distinct(keys)
    && (forall k | k in keys :: k in tls && tls[k] != [])
    && (forall k, x | k in keys && k in tls && x in tls[k] :: PrKey(x.payload) == Some(k))
  }

  /** The keys, in order, whose first event has fate `f`. */
  function WithFate(keys: seq<Url>, firsts: map<Url, Timed>, f: Fate): (ks: seq<Url>)
    requires forall k | k in keys :: k in firsts
    ensures forall k | k in ks :: k in keys && FateOf(firsts[k].payload) == f
  {
    if keys == [] then []
    else
      var k := keys[|keys| - 1];
      WithFate(keys[..|keys| - 1], firsts, f) + (if FateOf(firsts[k].payload) == f then [k] else [])
  }

  /** Each key paired with the title its first event carries. */
  function RefsOf(keys: seq<Url>, firsts: map<Url, Timed>): (refs: seq<PrRef>)
    requires forall k | k in keys :: k in firsts
    ensures Urls(refs) == keys
  {
    if keys == [] then []
    else
      var k := keys[|keys| - 1];
      var refs := RefsOf(keys[..|keys| - 1], firsts);
      UrlsSnoc(refs, PrRef(TitleOf(firsts[k].payload), k));
      refs + [PrRef(TitleOf(firsts[k].payload), k)]
  }

  /** Walking a timeline from an unprocessed key does exactly what its first
      event does: that event marks the key processed and every later event of
      the key is ignored. */
  lemma {:induction false} WalkFirstWins(st: Tally, es: seq<Timed>, k: Url)
    requires es != [] && forall x | x in es :: PrKey(x.payload) == Some(k)
    requires k !in st.processed && st.openedUrls <= st.processed
    ensures Walk(st, es) == Step(st, es[0])
  {
    var init := es[..|es| - 1];
    if init == [] {
      assert es == [es[0]];
    } else {
      assert forall x | x in init :: x in es;
      WalkFirstWins(st, init, k);
      assert es[|es| - 1] in es;
      StepIgnoresProcessed(Step(st, es[0]), es[|es| - 1], k);
    }
  }

  /** The four PR buckets, as determined by the first events of `keys`. */
  ghost predicate BucketsDecided(s: Summary, keys: seq<Url>, firsts: map<Url, Timed>)
    requires forall k | k in keys :: k in firsts
  {
    && s.prsOpened == RefsOf(WithFate(keys, firsts, OpenedFate), firsts)
    && s.prsClosed == RefsOf(WithFate(keys, firsts, ClosedFate), firsts)
    && s.prsReviewed == RefsOf(WithFate(keys, firsts, ReviewedFate), firsts)
    && s.commentKeys == WithFate(keys, firsts, CommentedFate)
    && (forall k | k in s.prComments ::
          k in keys && s.prComments[k] == [CommentText(BodyOf(firsts[k].payload))])
    && s.generalComments == []
  }

  /** The sets and the title map, as determined by the first events of `keys`. */
  ghost predicate BookkeepingDecided(st: Tally, keys: seq<Url>, firsts: map<Url, Timed>)
    requires forall k | k in keys :: k in firsts
  {
    && (forall u :: u in st.processed <==> u in keys)
    && st.openedUrls <= st.processed
    && (forall u | u in keys :: (u in st.titles <==> FateOf(firsts[u].payload) != ReviewedFate))
    && (forall u | u in st.titles :: u in keys && st.titles[u] == TitleOf(firsts[u].payload))
  }

  lemma WithFateSnoc(keys: seq<Url>, firsts: map<Url, Timed>, f: Fate, k: Url)
    requires forall j | j in keys + [k] :: j in firsts
    ensures WithFate(keys + [k], firsts, f) ==
              if FateOf(firsts[k].payload) == f then WithFate(keys, firsts, f) + [k]
              else WithFate(keys, firsts, f)
  {
    assert (keys + [k])[..|keys|] == keys;
    assert WithFate(keys, firsts, f) + [] == WithFate(keys, firsts, f);
  }

  lemma RefsOfSnoc(keys: seq<Url>, firsts: map<Url, Timed>, k: Url)
    requires forall j | j in keys + [k] :: j in firsts
    ensures RefsOf(keys + [k], firsts) == RefsOf(keys, firsts) + [PrRef(TitleOf(firsts[k].payload), k)]
  {
    assert (keys + [k])[..|keys|] == keys;
  }

  /** One bucket of PR references gains the new key exactly when its fate is the bucket's. */
  lemma RefBucketStep(b: seq<PrRef>, b': seq<PrRef>, keys: seq<Url>, firsts: map<Url, Timed>,
                      k: Url, f: Fate)
    requires forall j | j in keys + [k] :: j in firsts
    requires b == RefsOf(WithFate(keys, firsts, f), firsts)
    requires b' == if FateOf(firsts[k].payload) == f then b + [PrRef(TitleOf(firsts[k].payload), k)] else b
    ensures b' == RefsOf(WithFate(keys + [k], firsts, f), firsts)
  {
    WithFateSnoc(keys, firsts, f, k);
    if FateOf(firsts[k].payload) == f {
      RefsOfSnoc(WithFate(keys, firsts, f), firsts, k);
    }
  }

  /** One more key: its first event extends exactly the bucket its fate names. */
  lemma BucketsStep(s: Summary, s': Summary, keys: seq<Url>, firsts: map<Url, Timed>, k: Url)
    requires forall j | j in keys + [k] :: j in firsts
    requires BucketsDecided(s, keys, firsts)
    requires SummaryExtends(s, s', k, firsts[k].payload)
    ensures BucketsDecided(s', keys + [k], firsts)
  {
    RefBucketStep(s.prsOpened, s'.prsOpened, keys, firsts, k, OpenedFate);
    RefBucketStep(s.prsClosed, s'.prsClosed, keys, firsts, k, ClosedFate);
    RefBucketStep(s.prsReviewed, s'.prsReviewed, keys, firsts, k, ReviewedFate);
    WithFateSnoc(keys, firsts, CommentedFate, k);
  }

  lemma BookkeepingStep(st: Tally, st': Tally, keys: seq<Url>, firsts: map<Url, Timed>, k: Url)
    requires forall j | j in keys + [k] :: j in firsts
    requires BookkeepingDecided(st, keys, firsts)
    requires BookkeepingExtends(st, st', k, firsts[k].payload)
    ensures BookkeepingDecided(st', keys + [k], firsts)
  {
  }

  /** The first event of each PR's timeline, in stable time order, decides the
      PR's single entry: "opened" puts it in `prs_opened`, "closed" in
      `prs_closed`, a review in `prs_reviewed`, a comment in `pr_comments`
      with that comment's text; any other action writes only the title. A
      review records no title, so such a PR has none in `pr_title_map`. */
  lemma {:induction false} FirstEventDecides(keys: seq<Url>, tls: map<Url, seq<Timed>>)
    requires WellGrouped(keys, tls)
    ensures var st := Aggregated(keys, tls);
            BucketsDecided(st.summary, keys, FirstEvents(tls))
            && BookkeepingDecided(st, keys, FirstEvents(tls))
  {
    var firsts := FirstEvents(tls);
    if keys != [] {
      var init, k := keys[..|keys| - 1], keys[|keys| - 1];
      assert keys == init + [k];
      assert forall j | j in init :: j in keys;
      FirstEventDecides(init, tls);
      var st := Aggregated(init, tls);
      var sorted := SortByTime(tls[k]);
      forall x | x in sorted
        ensures PrKey(x.payload) == Some(k)
      {
        assert x in multiset(sorted);
        assert x in tls[k];
      }
      assert k !in init;
      WalkFirstWins(st, sorted, k);
      assert firsts[k] == sorted[0];
      assert k !in st.processed && k !in st.summary.prComments;
      StepOnFresh(st, sorted[0], k);
      BucketsStep(st.summary, Step(st, sorted[0]).summary, init, firsts, k);
      BookkeepingStep(st, Step(st, sorted[0]), init, firsts, k);
    }
  }

  lemma {:induction false} WithFateMembership(keys: seq<Url>, firsts: map<Url, Timed>, f: Fate, k: Url)
    requires forall j | j in keys :: j in firsts
    ensures k in WithFate(keys, firsts, f) <==> k in keys && FateOf(firsts[k].payload) == f
  {
    if keys != [] {
      var init, last := keys[..|keys| - 1], keys[|keys| - 1];
      assert keys == init + [last];
      assert forall j | j in init :: j in keys;
      WithFateMembership(init, firsts, f, k);
    }
  }

  /** A summary decided by first events places each key by its first event's fate. */
  lemma DecidedPlacesKey(st: Tally, keys: seq<Url>, firsts: map<Url, Timed>, k: Url, first: Payload)
    requires forall j | j in keys :: j in firsts
    requires BucketsDecided(st.summary, keys, firsts) && BooksAgree(st) && k in keys
    requires firsts[k].payload == first
    ensures var s := st.summary;
            && (k in Urls(s.prsOpened) <==> FateOf(first) == OpenedFate)
            && (k in Urls(s.prsClosed) <==> FateOf(first) == ClosedFate)
            && (k in Urls(s.prsReviewed) <==> FateOf(first) == ReviewedFate)
            && (k in s.commentKeys <==> FateOf(first) == CommentedFate)
            && (k in s.prComments <==> FateOf(first) == CommentedFate)
            && (k in s.prComments ==> s.prComments[k] == [CommentText(BodyOf(first))])
  {
    WithFateMembership(keys, firsts, OpenedFate, k);
    WithFateMembership(keys, firsts, ClosedFate, k);
    WithFateMembership(keys, firsts, ReviewedFate, k);
    WithFateMembership(keys, firsts, CommentedFate, k);
  }

  /** The aggregate is decided by the first events, and its books agree. */
  lemma AggregatedDecided(keys: seq<Url>, tls: map<Url, seq<Timed>>)
    requires WellGrouped(keys, tls)
    ensures forall j | j in keys :: j in FirstEvents(tls)
    ensures BucketsDecided(Aggregated(keys, tls).summary, keys, FirstEvents(tls))
    ensures BooksAgree(Aggregated(keys, tls))
  {
    FirstEventDecides(keys, tls);
    AggregatedIsConsistent(keys, tls);
  }

  /** Where one PR key ends up: it is in exactly the bucket its first event
      names (none for an action other than opened or closed), and a
      `pr_comments` entry holds the text of that first comment. */
  lemma FirstEventPlacesKey(keys: seq<Url>, tls: map<Url, seq<Timed>>, k: Url)
    requires WellGrouped(keys, tls) && k in keys
    ensures var s, first := Aggregated(keys, tls).summary, SortByTime(tls[k])[0].payload;
            && (k in Urls(s.prsOpened) <==> FateOf(first) == OpenedFate)
            && (k in Urls(s.prsClosed) <==> FateOf(first) == ClosedFate)
            && (k in Urls(s.prsReviewed) <==> FateOf(first) == ReviewedFate)
            && (k in s.commentKeys <==> FateOf(first) == CommentedFate)
            && (k in s.prComments <==> FateOf(first) == CommentedFate)
            && (k in s.prComments ==> s.prComments[k] == [CommentText(BodyOf(first))])
  {
    AggregatedDecided(keys, tls);
    DecidedPlacesKey(Aggregated(keys, tls), keys, FirstEvents(tls), k, SortByTime(tls[k])[0].payload);
  }

  /** Every claimed key was walked, and is claimed once. */
  lemma ClaimedKeysAreWalked(keys: seq<Url>, tls: map<Url, seq<Timed>>, u: Url)
    requires WellGrouped(keys, tls)
    requires u in Claimed(Aggregated(keys, tls).summary)
    ensures u in keys && multiset(Claimed(Aggregated(keys, tls).summary))[u] == 1
  {
    var st := Aggregated(keys, tls);
    FirstEventDecides(keys, tls);
    AggregatedIsConsistent(keys, tls);
    assert u in st.processed;
    assert u in multiset(Claimed(st.summary));
  }

  /** The aggregation loop of lines 67-97: for each key in first-seen order,
      sort its timeline and walk it, updating the buckets and sets in place. */
  method Aggregate(keys: seq<Url>, prEvents: map<Url, seq<Timed>>) returns (st: Tally)
    requires forall k | k in keys :: k in prEvents
    ensures st == Aggregated(keys, prEvents)
  {
    var prsOpened, prsClosed, prsReviewed: seq<PrRef> := [], [], [];
    var commentKeys: seq<Url> := [];
    var prComments: map<Url, seq<string>> := map[];
    var titles: map<Url, string> := map[];
    var openedUrls, processed: set<Url> := {}, {};
    for i := 0 to |keys|
      invariant Tally(Summary(prsOpened, prsClosed, prsReviewed, commentKeys, prComments, []),
                      titles, processed, openedUrls) == Aggregated(keys[..i], prEvents)
    {
      assert keys[..i + 1][..i] == keys[..i];
      ghost var before := Aggregated(keys[..i], prEvents);
      var timed := SortByTime(prEvents[keys[i]]);
      for j := 0 to |timed|
        invariant Tally(Summary(prsOpened, prsClosed, prsReviewed, commentKeys, prComments, []),
                        titles, processed, openedUrls) == Walk(before, timed[..j])
      {
        assert timed[..j + 1][..j] == timed[..j] && timed[..j + 1][j] == timed[j];
        assert Walk(before, timed[..j + 1]) == Step(Walk(before, timed[..j]), timed[j]);
        ghost var cur := Tally(Summary(prsOpened, prsClosed, prsReviewed, commentKeys, prComments, []),
                               titles, processed, openedUrls);
        var p := timed[j].payload;
        if p.PullRequest? {
          var url := p.url;
          if url !in processed {
            titles := titles[url := p.title];
            if p.action == "opened" {
              prsOpened := prsOpened + [PrRef(p.title, url)];
              openedUrls := openedUrls + {url};
            } else if p.action == "closed" {
              prsClosed := prsClosed + [PrRef(p.title, url)];
            }
            processed := processed + {url};
          }
        } else if p.Review? {
          var url := p.url;
          if url !in processed && url !in openedUrls {
            prsReviewed := prsReviewed + [PrRef(p.title, url)];
            processed := processed + {url};
          }
        } else if p.IssueComment? && IsPullUrl(p.issueUrl) {
          var url := p.prUrl;
          if url !in processed {
            titles := titles[url := p.title];
            if url in prComments {
              prComments := prComments[url := prComments[url] + [CommentText(p.body)]];
            } else {
              commentKeys := commentKeys + [url];
              assert [] + [CommentText(p.body)] == [CommentText(p.body)];
              prComments := prComments[url := [CommentText(p.body)]];
            }
            processed := processed + {url};
          }
          assert Tally(Summary(prsOpened, prsClosed, prsReviewed, commentKeys, prComments, []),
                               titles, processed, openedUrls) == Step(cur, timed[j]);
        } else {
          assert Tally(Summary(prsOpened, prsClosed, prsReviewed, commentKeys, prComments, []),
                               titles, processed, openedUrls) == Step(cur, timed[j]);
        }
      }
      assert timed[..|timed|] == timed;
    }
    assert keys[..|keys|] == keys;
    st := Tally(Summary(prsOpened, prsClosed, prsReviewed, commentKeys, prComments, []),
                titles, processed, openedUrls);
  }
}
