/** The general-comment collector (github-daily-summary.py, lines 99-103):
    sorts the general events by time and keeps the text of each issue comment. */
module GeneralComments {
  import opened Events
  import opened Timeline
  import Aggregator

  /** Only issue comments among the general events contribute a text. */
  function IsIssueCommentEvent(x: Timed): bool
  {
    x.payload.IssueComment?
  }

  /** The stored text `"Comment: " + body` of each event, in order. */
  function CommentTexts(ts: seq<Timed>): (texts: seq<string>)
    ensures |texts| == |ts|
    ensures forall i | 0 <= i < |ts| :: texts[i] == Aggregator.CommentText(Aggregator.BodyOf(ts[i].payload))
  {
    if ts == [] then []
    else CommentTexts(ts[..|ts| - 1]) + [Aggregator.CommentText(Aggregator.BodyOf(ts[|ts| - 1].payload))]
  }

  /** One more general event adds its text exactly when it is an issue comment. */
  lemma CollectStep(s: seq<Timed>, j: nat)
    requires j < |s|
    ensures CommentTexts(Filter(s[..j + 1], IsIssueCommentEvent)) ==
            CommentTexts(Filter(s[..j], IsIssueCommentEvent))
            + (if s[j].payload.IssueComment? then [Aggregator.CommentText(s[j].payload.body)] else [])
  {
    var x := s[j];
    var f := Filter(s[..j], IsIssueCommentEvent);
    assert s[..j + 1] == s[..j] + [x];
    FilterAppend(s[..j], [x], IsIssueCommentEvent);
    assert Filter([x], IsIssueCommentEvent) == if IsIssueCommentEvent(x) then [x] else [];
    if x.payload.IssueComment? {
      assert (f + [x])[..|f|] == f;
    } else {
      assert f + [] == f;
      assert CommentTexts(f) + [] == CommentTexts(f);
    }
  }

  /** Selecting the comments after the sort is sorting the selected comments. */
  lemma CollectDone(general: seq<Timed>)
    ensures var sorted := SortByTime(general);
            CommentTexts(Filter(sorted[..|sorted|], IsIssueCommentEvent)) ==
            CommentTexts(SortByTime(Filter(general, IsIssueCommentEvent)))
  {
    var sorted := SortByTime(general);
    assert sorted[..|sorted|] == sorted;
    FilterSortCommute(general, IsIssueCommentEvent);
  }

  /** Lines 99-103: sort `general_events` in place, then append the text of
      every issue comment to `general_comments`. The result lists the issue
      comments of `general` in stable ascending time order. */
  method CollectGeneralComments(general: seq<Timed>) returns (comments: seq<string>)
    ensures comments == CommentTexts(SortByTime(Filter(general, IsIssueCommentEvent)))
  {
    var sorted := SortByTime(general);
    comments := [];
    for j := 0 to |sorted|
      invariant comments == CommentTexts(Filter(sorted[..j], IsIssueCommentEvent))
    {
      CollectStep(sorted, j);
      if sorted[j].payload.IssueComment? {
        comments := comments + [Aggregator.CommentText(sorted[j].payload.body)];
      }
    }
    CollectDone(general);
  }

  /** The collected texts are exactly those of the issue comments among the
      general events: one per comment, none for any other kind of event, and
      in non-decreasing time order with ties in input order. */
  lemma GeneralCommentsAreTheComments(general: seq<Timed>)
    ensures var cs := SortByTime(Filter(general, IsIssueCommentEvent));
            && Sorted(cs)
            && multiset(cs) == multiset(Filter(general, IsIssueCommentEvent))
            && (forall x | x in cs :: x in general && x.payload.IssueComment?)
            && (forall x | x in general && x.payload.IssueComment? :: x in cs)
            && (forall t :: Filter(cs, AtTime(t)) == Filter(Filter(general, IsIssueCommentEvent), AtTime(t)))
  {
    var f := Filter(general, IsIssueCommentEvent);
    var cs := SortByTime(f);
    forall x | x in cs
      ensures x in general && x.payload.IssueComment?
    {
      assert x in multiset(cs);
      assert x in f;
    }
    forall x | x in general && x.payload.IssueComment?
      ensures x in cs
    {
      FilterMembership(general, IsIssueCommentEvent, x);
      assert x in multiset(f);
    }
    forall t
      ensures Filter(cs, AtTime(t)) == Filter(f, AtTime(t))
    {
      SortIsStable(f, t);
    }
  }
}
