/** The markdown renderer (github-daily-summary.py, lines 105-143). The output
    is specified as a list of lines; the text is each line followed by "\n". */
module Renderer {
  import opened Events
  import opened Timeline
  import opened Classifier
  import opened Aggregator

  const OpenedHeader: string := "### Pull Requests Opened"
  const ClosedHeader: string := "### Pull Requests Closed"
  const ReviewedHeader: string := "### Pull Requests Reviewed"
  const CompactHeader: string := "### Commented on Pull Requests"
  const DetailedHeader: string := "### Pull Request Comments"
  const GeneralHeader: string := "### General Comments"

  /** A top-level list item. */
  function Bullet(item: string): string
  {
    "- " + item
  }

  /** A comment nested under a PR line in detailed mode. */
  function SubBullet(text: string): string
  {
    "    - " + text
  }

  /** The text of a list of lines, each ended by a newline. */
  function Unlines(ls: seq<string>): (out: string)
    ensures |out| >= |ls|
  {
    if ls == [] then "" else Unlines(ls[..|ls| - 1]) + ls[|ls| - 1] + "\n"
  }

  lemma {:induction false} UnlinesAppend(a: seq<string>, b: seq<string>)
    ensures Unlines(a + b) == Unlines(a) + Unlines(b)
  {
    if b == [] {
      assert a + b == a;
    } else {
      var init, last := b[..|b| - 1], b[|b| - 1];
      assert (a + b)[..|a + b| - 1] == a + init;
      UnlinesAppend(a, init);
    }
  }

  lemma UnlinesSnoc(ls: seq<string>, line: string)
    ensures Unlines(ls + [line]) == Unlines(ls) + line + "\n"
  {
    assert (ls + [line])[..|ls|] == ls;
  }

  /** One bullet per item, in order. */
  function Bullets(items: seq<string>): (ls: seq<string>)
    ensures |ls| == |items| && forall i | 0 <= i < |items| :: ls[i] == Bullet(items[i])
  {
    if items == [] then [] else Bullets(items[..|items| - 1]) + [Bullet(items[|items| - 1])]
  }

  /** A section: its header and one bullet per item, or nothing when there are no items. */
  function Section(header: string, items: seq<string>): seq<string>
  {
    if items == [] then [] else [header] + Bullets(items)
  }

  /** The stored `[title](url)` strings of a bucket. */
  function Formats(refs: seq<PrRef>): (items: seq<string>)
    ensures |items| == |refs| && forall i | 0 <= i < |refs| :: items[i] == Format(refs[i])
  {
    if refs == [] then [] else Formats(refs[..|refs| - 1]) + [Format(refs[|refs| - 1])]
  }

  /** `pr_title_map.get(url, url)`: the recorded title, or the URL itself. */
  function TitleFor(titles: map<Url, string>, url: Url): string
  {
    if url in titles then titles[url] else url
  }

  /** The line naming one pull request in the comment section. */
  function RefLine(titles: map<Url, string>, k: Url): string
  {
    Bullet(Format(PrRef(TitleFor(titles, k), k)))
  }

  /** The items of the compact comment section, one per `pr_comments` key. */
  function CompactItems(keys: seq<Url>, titles: map<Url, string>): (items: seq<string>)
    ensures |items| == |keys|
    ensures forall i | 0 <= i < |keys| :: items[i] == Format(PrRef(TitleFor(titles, keys[i]), keys[i]))
  {
    if keys == [] then []
    else
      var k := keys[|keys| - 1];
      CompactItems(keys[..|keys| - 1], titles) + [Format(PrRef(TitleFor(titles, k), k))]
  }

  /** The nested comment lines of one group, in the order given. */
  function SubBullets(ts: seq<Timed>): (ls: seq<string>)
    ensures |ls| == |ts|
    ensures forall i | 0 <= i < |ts| :: ls[i] == SubBullet(CommentText(BodyOf(ts[i].payload)))
  {
    if ts == [] then []
    else SubBullets(ts[..|ts| - 1]) + [SubBullet(CommentText(BodyOf(ts[|ts| - 1].payload)))]
  }

  /** One group of the detailed section: the PR line, then its comments sorted by time. */
  function GroupLines(all: seq<Timed>, titles: map<Url, string>, k: Url): seq<string>
  {
    [RefLine(titles, k)] + SubBullets(SortByTime(PrTimeline(all, k)))
  }

  /** The groups of the detailed section for the keys `ks`, in that order. */
  function DetailedLines(all: seq<Timed>, titles: map<Url, string>, ks: seq<Url>): seq<string>
  {
    if ks == [] then []
    else DetailedLines(all, titles, ks[..|ks| - 1]) + GroupLines(all, titles, ks[|ks| - 1])
  }

  /** Lines 119-138: the PR comment section, present only when `pr_comments` is
      non-empty. Compact mode lists its keys; detailed mode groups every comment
      of `all_pr_comments` by PR in first-seen order. */
  function CommentLines(s: Summary, titles: map<Url, string>, all: seq<Timed>, summaryMode: bool): seq<string>
  {
    if s.commentKeys == [] then []
    else if summaryMode then [CompactHeader] + Bullets(CompactItems(s.commentKeys, titles))
    else [DetailedHeader] + DetailedLines(all, titles, KeysOf(all))
  }

  /** The lines of the markdown output, five sections in a fixed order. */
  function MarkdownLines(s: Summary, titles: map<Url, string>, all: seq<Timed>, summaryMode: bool): seq<string>
  {
    Section(OpenedHeader, Formats(s.prsOpened))
    + Section(ClosedHeader, Formats(s.prsClosed))
    + Section(ReviewedHeader, Formats(s.prsReviewed))
    + CommentLines(s, titles, all, summaryMode)
    + Section(GeneralHeader, s.generalComments)
  }

  /** The markdown text returned by line 143. */
  function Markdown(s: Summary, titles: map<Url, string>, all: seq<Timed>, summaryMode: bool): string
  {
    Unlines(MarkdownLines(s, titles, all, summaryMode))
  }

  // ---------------------------------------------------------------------------
  // Properties of the output

  /** The output is empty exactly when every list of the summary is empty. */
  lemma MarkdownEmptyIff(s: Summary, titles: map<Url, string>, all: seq<Timed>, summaryMode: bool)
    ensures Markdown(s, titles, all, summaryMode) == "" <==>
            s.prsOpened == [] && s.prsClosed == [] && s.prsReviewed == []
            && s.commentKeys == [] && s.generalComments == []
  {
    var ls := MarkdownLines(s, titles, all, summaryMode);
    if ls == [] {
      assert Unlines(ls) == "";
    }
    if s.prsOpened != [] {
      assert ls[0] == OpenedHeader;
    }
  }

  /** The six section headers. */
  predicate IsHeader(h: string)
  {
    h == OpenedHeader || h == ClosedHeader || h == ReviewedHeader
    || h == CompactHeader || h == DetailedHeader || h == GeneralHeader
  }

  lemma HeadersDistinct()
    ensures OpenedHeader != ClosedHeader && OpenedHeader != ReviewedHeader && OpenedHeader != CompactHeader
    ensures OpenedHeader != DetailedHeader && OpenedHeader != GeneralHeader
    ensures ClosedHeader != ReviewedHeader && ClosedHeader != CompactHeader
    ensures ClosedHeader != DetailedHeader && ClosedHeader != GeneralHeader
    ensures ReviewedHeader != CompactHeader && ReviewedHeader != DetailedHeader && ReviewedHeader != GeneralHeader
    ensures CompactHeader != DetailedHeader && CompactHeader != GeneralHeader && DetailedHeader != GeneralHeader
  {
    assert OpenedHeader[18] == 'O' && ClosedHeader[18] == 'C';
  }

  /** No bullet, nested or not, is a section header. */
  lemma HeaderIsNoBullet(header: string, items: seq<string>, ts: seq<Timed>)
    requires IsHeader(header)
    ensures header !in Bullets(items) && header !in SubBullets(ts)
  {
    assert header[0] == '#';
    forall i | 0 <= i < |items|
      ensures Bullets(items)[i] != header
    {
      assert Bullets(items)[i][0] == '-';
    }
    forall i | 0 <= i < |ts|
      ensures SubBullets(ts)[i] != header
    {
      assert SubBullets(ts)[i][0] == ' ';
    }
  }

  lemma {:induction false} HeaderNotInDetailed(header: string, all: seq<Timed>,
                                               titles: map<Url, string>, ks: seq<Url>)
    requires IsHeader(header)
    ensures header !in DetailedLines(all, titles, ks)
  {
    if ks != [] {
      var k := ks[|ks| - 1];
      HeaderNotInDetailed(header, all, titles, ks[..|ks| - 1]);
      HeaderIsNoBullet(header, [], SortByTime(PrTimeline(all, k)));
      assert RefLine(titles, k)[0] == '-';
      assert header[0] == '#';
    }
  }

  /** A section holds a header only if it is its own, and only when it has items. */
  lemma SectionHeaders(header: string, items: seq<string>, h: string)
    requires IsHeader(h)
    ensures h in Section(header, items) <==> h == header && items != []
  {
    HeaderIsNoBullet(h, items, []);
  }

  /** The comment section holds the header of its mode, only when `pr_comments` is non-empty. */
  lemma CommentHeaders(s: Summary, titles: map<Url, string>, all: seq<Timed>, summaryMode: bool, h: string)
    requires IsHeader(h)
    ensures h in CommentLines(s, titles, all, summaryMode) <==>
            s.commentKeys != [] && h == (if summaryMode then CompactHeader else DetailedHeader)
  {
    HeaderIsNoBullet(h, CompactItems(s.commentKeys, titles), []);
    HeaderNotInDetailed(h, all, titles, KeysOf(all));
  }

  /** Where a header can occur in the output. */
  lemma HeaderPlaces(s: Summary, titles: map<Url, string>, all: seq<Timed>, summaryMode: bool, h: string)
    requires IsHeader(h)
    ensures h in MarkdownLines(s, titles, all, summaryMode) <==>
            || (h == OpenedHeader && s.prsOpened != [])
            || (h == ClosedHeader && s.prsClosed != [])
            || (h == ReviewedHeader && s.prsReviewed != [])
            || (s.commentKeys != [] && h == (if summaryMode then CompactHeader else DetailedHeader))
            || (h == GeneralHeader && s.generalComments != [])
  {
    var o, c, r := Formats(s.prsOpened), Formats(s.prsClosed), Formats(s.prsReviewed);
    SectionHeaders(OpenedHeader, o, h);
    SectionHeaders(ClosedHeader, c, h);
    SectionHeaders(ReviewedHeader, r, h);
    SectionHeaders(GeneralHeader, s.generalComments, h);
    CommentHeaders(s, titles, all, summaryMode, h);
    assert o != [] <==> s.prsOpened != [];
    assert c != [] <==> s.prsClosed != [];
    assert r != [] <==> s.prsReviewed != [];
  }

  /** Lines 107-142: each section header is printed exactly when its list is
      non-empty; the PR comment header, in either mode, only when the gated
      `pr_comments` is non-empty, whatever `all_pr_comments` holds. */
  lemma HeadersAreGated(s: Summary, titles: map<Url, string>, all: seq<Timed>, summaryMode: bool)
    ensures var ls := MarkdownLines(s, titles, all, summaryMode);
            && (OpenedHeader in ls <==> s.prsOpened != [])
            && (ClosedHeader in ls <==> s.prsClosed != [])
            && (ReviewedHeader in ls <==> s.prsReviewed != [])
            && (CompactHeader in ls <==> s.commentKeys != [] && summaryMode)
            && (DetailedHeader in ls <==> s.commentKeys != [] && !summaryMode)
            && (GeneralHeader in ls <==> s.generalComments != [])
  {
    HeadersDistinct();
    HeaderPlaces(s, titles, all, summaryMode, OpenedHeader);
    HeaderPlaces(s, titles, all, summaryMode, ClosedHeader);
    HeaderPlaces(s, titles, all, summaryMode, ReviewedHeader);
    HeaderPlaces(s, titles, all, summaryMode, CompactHeader);
    HeaderPlaces(s, titles, all, summaryMode, DetailedHeader);
    HeaderPlaces(s, titles, all, summaryMode, GeneralHeader);
  }

  /** An item of a section appears in it as a bullet. */
  lemma ItemListed(header: string, items: seq<string>, item: string)
    requires item in items
    ensures Bullet(item) in Section(header, items)
  {
    var i :| 0 <= i < |items| && items[i] == item;
    assert Section(header, items)[i + 1] == Bullet(item);
  }

  lemma RefListed(header: string, refs: seq<PrRef>, r: PrRef)
    requires r in refs
    ensures Bullet(Format(r)) in Section(header, Formats(refs))
  {
    var i :| 0 <= i < |refs| && refs[i] == r;
    ItemListed(header, Formats(refs), Formats(refs)[i]);
  }

  /** Every entry of every bucket appears as one bullet `"- " + item`; in
      compact mode every `pr_comments` key appears with its title or URL. */
  lemma EveryEntryListed(s: Summary, titles: map<Url, string>, all: seq<Timed>, summaryMode: bool)
    ensures var ls := MarkdownLines(s, titles, all, summaryMode);
            && (forall r | r in s.prsOpened :: Bullet(Format(r)) in ls)
            && (forall r | r in s.prsClosed :: Bullet(Format(r)) in ls)
            && (forall r | r in s.prsReviewed :: Bullet(Format(r)) in ls)
            && (forall c | c in s.generalComments :: Bullet(c) in ls)
            && (summaryMode ==> forall k | k in s.commentKeys :: RefLine(titles, k) in ls)
  {
    forall r | r in s.prsOpened
      ensures Bullet(Format(r)) in Section(OpenedHeader, Formats(s.prsOpened))
    {
      RefListed(OpenedHeader, s.prsOpened, r);
    }
    forall r | r in s.prsClosed
      ensures Bullet(Format(r)) in Section(ClosedHeader, Formats(s.prsClosed))
    {
      RefListed(ClosedHeader, s.prsClosed, r);
    }
    forall r | r in s.prsReviewed
      ensures Bullet(Format(r)) in Section(ReviewedHeader, Formats(s.prsReviewed))
    {
      RefListed(ReviewedHeader, s.prsReviewed, r);
    }
    forall c | c in s.generalComments
      ensures Bullet(c) in Section(GeneralHeader, s.generalComments)
    {
      ItemListed(GeneralHeader, s.generalComments, c);
    }
    if summaryMode {
      forall k | k in s.commentKeys
        ensures RefLine(titles, k) in CommentLines(s, titles, all, summaryMode)
      {
        var items := CompactItems(s.commentKeys, titles);
        var i :| 0 <= i < |s.commentKeys| && s.commentKeys[i] == k;
        ItemListed(CompactHeader, items, items[i]);
      }
    }
  }

  /** A block at the end of a list of lines is a block of it. */
  lemma BlockAtEnd(pre: seq<string>, g: seq<string>)
    ensures exists a, b :: pre + g == a + g + b
  {
    assert pre + g == pre + g + [];
  }

  /** A block stays a block when more lines follow. */
  lemma BlockExtends(ls: seq<string>, g: seq<string>, more: seq<string>)
    requires exists a, b :: ls == a + g + b
    ensures exists a, b :: ls + more == a + g + b
  {
    var a, b :| ls == a + g + b;
    LinesAssoc(a + g, b, more);
    assert ls + more == a + g + (b + more);
  }

  /** The group of a listed PR is one contiguous block of the detailed section. */
  lemma {:induction false} GroupIsABlock(all: seq<Timed>, titles: map<Url, string>, ks: seq<Url>, k: Url)
    requires k in ks
    ensures exists a, b :: DetailedLines(all, titles, ks) == a + GroupLines(all, titles, k) + b
  {
    var init, last := ks[..|ks| - 1], ks[|ks| - 1];
    var more := GroupLines(all, titles, last);
    assert DetailedLines(all, titles, ks) == DetailedLines(all, titles, init) + more;
    if k == last {
      BlockAtEnd(DetailedLines(all, titles, init), more);
    } else {
      assert ks == init + [last];
      GroupIsABlock(all, titles, init, k);
      BlockExtends(DetailedLines(all, titles, init), GroupLines(all, titles, k), more);
    }
  }

  lemma SubBulletListed(ts: seq<Timed>, x: Timed)
    requires x in ts
    ensures SubBullet(CommentText(BodyOf(x.payload))) in SubBullets(ts)
  {
    var i :| 0 <= i < |ts| && ts[i] == x;
    assert SubBullets(ts)[i] == SubBullet(CommentText(BodyOf(x.payload)));
  }

  /** Lines 126-138: detailed mode lists every comment of `all_pr_comments`
      in the group of its own PR, a contiguous block that starts with the
      PR's line; this includes PRs that have no `pr_comments` entry. */
  lemma DetailedListsEveryComment(all: seq<Timed>, titles: map<Url, string>, x: Timed)
    requires x in all && IsPrComment(x.payload)
    ensures var ls, k := DetailedLines(all, titles, KeysOf(all)), x.payload.prUrl;
            var g := GroupLines(all, titles, k);
            && k in KeysOf(all)
            && (exists a, b :: ls == a + g + b)
            && g[0] == RefLine(titles, k)
            && SubBullet(CommentText(x.payload.body)) in g[1..]
  {
    var k := x.payload.prUrl;
    FilterMembership(all, KeyIs(k), x);
    KeysOfMembership(all, k);
    var sorted := SortByTime(PrTimeline(all, k));
    SortKeepsElement(PrTimeline(all, k), x);
    SubBulletListed(sorted, x);
    assert GroupLines(all, titles, k)[1..] == SubBullets(sorted);
    GroupIsABlock(all, titles, KeysOf(all), k);
  }

  /** The total size of the timelines of `ks` within `ts`. */
  function TimelineSizes(ts: seq<Timed>, ks: seq<Url>): nat
  {
    if ks == [] then 0 else TimelineSizes(ts, ks[..|ks| - 1]) + |PrTimeline(ts, ks[|ks| - 1])|
  }

  lemma {:induction false} TimelineSizesStep(ts: seq<Timed>, ks: seq<Url>, x: Timed)
    requires Distinct(ks)
    ensures TimelineSizes(ts + [x], ks) ==
            TimelineSizes(ts, ks) + (if PrKey(x.payload).Some? && PrKey(x.payload).value in ks then 1 else 0)
  {
    if ks != [] {
      var init, last := ks[..|ks| - 1], ks[|ks| - 1];
      DistinctInit(ks);
      TimelineSizesStep(ts, init, x);
      FilterSnoc(ts, x, KeyIs(last));
      assert ks == init + [last];
    }
  }

  lemma TimelineSizesSnoc(ts: seq<Timed>, ks: seq<Url>, k: Url)
    ensures TimelineSizes(ts, ks + [k]) == TimelineSizes(ts, ks) + |PrTimeline(ts, k)|
  {
    assert (ks + [k])[..|ks|] == ks;
  }

  /** When every event is keyed, the timelines of the seen keys partition the events. */
  lemma {:induction false} TimelinesPartition(ts: seq<Timed>)
    requires forall x | x in ts :: PrKey(x.payload).Some?
    ensures TimelineSizes(ts, KeysOf(ts)) == |ts|
  {
    if ts != [] {
      var init, x := ts[..|ts| - 1], ts[|ts| - 1];
      assert ts == init + [x];
      assert forall y | y in init :: y in ts;
      TimelinesPartition(init);
      RouteStep(init, x);
      var k := PrKey(x.payload).value;
      TimelineSizesStep(init, KeysOf(init), x);
      if k !in KeysOf(init) {
        TimelineSizesSnoc(ts, KeysOf(init), k);
        KeysOfMembership(init, k);
      }
    }
  }

  lemma {:induction false} DetailedLinesCount(all: seq<Timed>, titles: map<Url, string>, ks: seq<Url>)
    ensures |DetailedLines(all, titles, ks)| == |ks| + TimelineSizes(all, ks)
  {
    if ks != [] {
      DetailedLinesCount(all, titles, ks[..|ks| - 1]);
    }
  }

  /** Detailed mode prints one line per PR and one line per comment of
      `all_pr_comments`, nothing else. */
  lemma DetailedLineCount(all: seq<Timed>, titles: map<Url, string>)
    requires forall x | x in all :: IsPrComment(x.payload)
    ensures |DetailedLines(all, titles, KeysOf(all))| == |KeysOf(all)| + |all|
  {
    DetailedLinesCount(all, titles, KeysOf(all));
    TimelinesPartition(all);
  }

  // ---------------------------------------------------------------------------
  // The rendering loops

  /** Appending one line to the text of a list of lines. */
  lemma AppendLine(md: string, ls: seq<string>, line: string)
    ensures md + Unlines(ls + [line]) == md + Unlines(ls) + line + "\n"
  {
    UnlinesSnoc(ls, line);
  }

  lemma BulletsStep(header: string, items: seq<string>, i: nat)
    requires i < |items|
    ensures [header] + Bullets(items[..i + 1]) == ([header] + Bullets(items[..i])) + [Bullet(items[i])]
  {
    assert items[..i + 1][..i] == items[..i];
  }

  /** Lines 107-118 and 139-142: appends a header and one bullet per item, or nothing. */
  method EmitSection(md: string, header: string, items: seq<string>) returns (out: string)
    ensures out == md + Unlines(Section(header, items))
  {
    out := md;
    if items != [] {
      AppendLine(md, [], header);
      out := out + header + "\n";
      for i := 0 to |items|
        invariant out == md + Unlines([header] + Bullets(items[..i]))
      {
        BulletsStep(header, items, i);
        AppendLine(md, [header] + Bullets(items[..i]), Bullet(items[i]));
        out := out + Bullet(items[i]) + "\n";
      }
      assert items[..|items|] == items;
    }
  }

  /** One more compact line printed after the lines of `keys[..i]`. */
  lemma CompactStep(md: string, out: string, keys: seq<Url>, titles: map<Url, string>, i: nat, line: string)
    requires i < |keys|
    requires out == md + Unlines([CompactHeader] + Bullets(CompactItems(keys, titles)[..i]))
    requires line == Bullet(Format(PrRef(if keys[i] in titles then titles[keys[i]] else keys[i], keys[i])))
    ensures out + line + "\n" == md + Unlines([CompactHeader] + Bullets(CompactItems(keys, titles)[..i + 1]))
  {
    var items := CompactItems(keys, titles);
    assert line == Bullet(items[i]);
    BulletsStep(CompactHeader, items, i);
    AppendLine(md, [CompactHeader] + Bullets(items[..i]), line);
  }

  /** Lines 121-124: one line per `pr_comments` key, titled from `pr_title_map`. */
  method EmitCompact(md: string, keys: seq<Url>, titles: map<Url, string>) returns (out: string)
    ensures out == md + Unlines([CompactHeader] + Bullets(CompactItems(keys, titles)))
  {
    AppendLine(md, [], CompactHeader);
    out := md + CompactHeader + "\n";
    for i := 0 to |keys|
      invariant out == md + Unlines([CompactHeader] + Bullets(CompactItems(keys, titles)[..i]))
    {
      var url := keys[i];
      var title := if url in titles then titles[url] else url;
      var line := Bullet(Format(PrRef(title, url)));
      CompactStep(md, out, keys, titles, i, line);
      out := out + line + "\n";
    }
    assert CompactItems(keys, titles)[..|keys|] == CompactItems(keys, titles);
  }

  /** `comment_groups` built so far from the events `ts`. */
  ghost predicate GroupedAs(ts: seq<Timed>, gkeys: seq<Url>, groups: map<Url, seq<Timed>>)
  {
    && gkeys == KeysOf(ts)
    && (forall k :: k in groups <==> k in gkeys)
    && (forall k | k in groups :: groups[k] == PrTimeline(ts, k))
  }

  lemma GroupStep(ts: seq<Timed>, gkeys: seq<Url>, groups: map<Url, seq<Timed>>, x: Timed)
    requires GroupedAs(ts, gkeys, groups) && IsPrComment(x.payload)
    ensures var k := x.payload.prUrl;
            GroupedAs(ts + [x], if k in groups then gkeys else gkeys + [k],
                      groups[k := (if k in groups then groups[k] else []) + [x]])
  {
    RouteStep(ts, x);
    KeysOfMembership(ts, x.payload.prUrl);
  }

  /** Lines 127-132: groups `all_pr_comments` by PR URL, in first-seen order. */
  method GroupComments(all: seq<Timed>) returns (gkeys: seq<Url>, groups: map<Url, seq<Timed>>)
    requires forall x | x in all :: IsPrComment(x.payload)
    ensures GroupedAs(all, gkeys, groups)
  {
    gkeys, groups := [], map[];
    for i := 0 to |all|
      invariant GroupedAs(all[..i], gkeys, groups)
    {
      var x := all[i];
      assert all[..i + 1] == all[..i] + [x];
      GroupStep(all[..i], gkeys, groups, x);
      var url := x.payload.prUrl;
      if url in groups {
        groups := groups[url := groups[url] + [x]];
      } else {
        gkeys := gkeys + [url];
        groups := groups[url := [x]];
      }
    }
    assert all[..|all|] == all;
  }

  lemma SubBulletsStep(head: string, ts: seq<Timed>, j: nat)
    requires j < |ts|
    ensures [head] + SubBullets(ts[..j + 1]) ==
            ([head] + SubBullets(ts[..j])) + [SubBullet(CommentText(BodyOf(ts[j].payload)))]
  {
    assert ts[..j + 1][..j] == ts[..j];
  }

  /** Lines 134-138 for one group: sort it, print the PR line, then each comment. */
  method EmitGroup(md: string, titles: map<Url, string>, k: Url, group: seq<Timed>) returns (out: string)
    ensures out == md + Unlines([RefLine(titles, k)] + SubBullets(SortByTime(group)))
  {
    var comments := SortByTime(group);
    var title := if k in titles then titles[k] else k;
    var head := Bullet(Format(PrRef(title, k)));
    assert head == RefLine(titles, k);
    AppendLine(md, [], head);
    out := md + head + "\n";
    for j := 0 to |comments|
      invariant out == md + Unlines([head] + SubBullets(comments[..j]))
    {
      var line := SubBullet(CommentText(BodyOf(comments[j].payload)));
      SubBulletsStep(head, comments, j);
      AppendLine(md, [head] + SubBullets(comments[..j]), line);
      out := out + line + "\n";
    }
    assert comments[..|comments|] == comments;
  }

  lemma LinesAssoc(a: seq<string>, b: seq<string>, c: seq<string>)
    ensures a + (b + c) == (a + b) + c
  {
  }

  /** Appending the text of more lines. */
  lemma AppendLines(md: string, ls: seq<string>, more: seq<string>)
    ensures md + Unlines(ls + more) == md + Unlines(ls) + Unlines(more)
  {
    UnlinesAppend(ls, more);
  }

  /** One more group printed after the groups of `ks[..g]`. */
  lemma DetailedStep(md: string, out: string, all: seq<Timed>, titles: map<Url, string>, ks: seq<Url>, g: nat)
    requires g < |ks|
    requires out == md + Unlines([DetailedHeader] + DetailedLines(all, titles, ks[..g]))
    ensures out + Unlines(GroupLines(all, titles, ks[g])) ==
            md + Unlines([DetailedHeader] + DetailedLines(all, titles, ks[..g + 1]))
  {
    assert ks[..g + 1][..g] == ks[..g];
    var lines, group := DetailedLines(all, titles, ks[..g]), GroupLines(all, titles, ks[g]);
    assert DetailedLines(all, titles, ks[..g + 1]) == lines + group;
    LinesAssoc([DetailedHeader], lines, group);
    AppendLines(md, [DetailedHeader] + lines, group);
  }

  /** Lines 126-138: the detailed comment section. */
  method EmitDetailed(md: string, all: seq<Timed>, titles: map<Url, string>) returns (out: string)
    requires forall x | x in all :: IsPrComment(x.payload)
    ensures out == md + Unlines([DetailedHeader] + DetailedLines(all, titles, KeysOf(all)))
  {
    var gkeys, groups := GroupComments(all);
    AppendLine(md, [], DetailedHeader);
    out := md + DetailedHeader + "\n";
    for g := 0 to |gkeys|
      invariant out == md + Unlines([DetailedHeader] + DetailedLines(all, titles, gkeys[..g]))
    {
      var k := gkeys[g];
      var group := groups[k];
      assert GroupLines(all, titles, k) == [RefLine(titles, k)] + SubBullets(SortByTime(group));
      DetailedStep(md, out, all, titles, gkeys, g);
      out := EmitGroup(out, titles, k, group);
    }
    assert gkeys[..|gkeys|] == gkeys;
  }

  lemma MarkdownSplits(s: Summary, titles: map<Url, string>, all: seq<Timed>, summaryMode: bool)
    ensures Markdown(s, titles, all, summaryMode) ==
            "" + Unlines(Section(OpenedHeader, Formats(s.prsOpened)))
            + Unlines(Section(ClosedHeader, Formats(s.prsClosed)))
            + Unlines(Section(ReviewedHeader, Formats(s.prsReviewed)))
            + Unlines(CommentLines(s, titles, all, summaryMode))
            + Unlines(Section(GeneralHeader, s.generalComments))
  {
    var o, c, r := Section(OpenedHeader, Formats(s.prsOpened)), Section(ClosedHeader, Formats(s.prsClosed)),
                   Section(ReviewedHeader, Formats(s.prsReviewed));
    var m, g := CommentLines(s, titles, all, summaryMode), Section(GeneralHeader, s.generalComments);
    UnlinesAppend(o + c + r + m, g);
    UnlinesAppend(o + c + r, m);
    UnlinesAppend(o + c, r);
    UnlinesAppend(o, c);
    assert "" + Unlines(o) == Unlines(o);
  }

  /** Lines 105-143: builds the markdown text with `+=`, section by section. */
  method RenderMarkdown(s: Summary, titles: map<Url, string>, all: seq<Timed>, summaryMode: bool)
    returns (md: string)
    requires forall x | x in all :: IsPrComment(x.payload)
    ensures md == Markdown(s, titles, all, summaryMode)
  {
    md := EmitSection("", OpenedHeader, Formats(s.prsOpened));
    md := EmitSection(md, ClosedHeader, Formats(s.prsClosed));
    md := EmitSection(md, ReviewedHeader, Formats(s.prsReviewed));
    ghost var before := md;
    if s.commentKeys != [] {
      if summaryMode {
        md := EmitCompact(md, s.commentKeys, titles);
      } else {
        md := EmitDetailed(md, all, titles);
      }
    } else {
      assert md == before + Unlines([]);
    }
    assert md == before + Unlines(CommentLines(s, titles, all, summaryMode));
    md := EmitSection(md, GeneralHeader, s.generalComments);
    MarkdownSplits(s, titles, all, summaryMode);
  }
}
