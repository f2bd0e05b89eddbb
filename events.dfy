/** The event records of the remote activity feed, reduced to the fields the
    daily summary reads, and the UTC day window that selects them. */
module Events {

  datatype Option<T> = None | Some(value: T)

  /** A pull request's `html_url`; it is the key every PR event is grouped by. */
  type Url = string

  /** Timestamps are integers counting microseconds since the epoch (UTC). */
  const DayMicros: int := 86_400_000_000

  /** The payload of an event, one variant per `type` tag the summary inspects. */
  datatype Payload =
    | PullRequest(action: string, url: Url, title: string)          // "PullRequestEvent"
    | Review(url: Url, title: string)                                // "PullRequestReviewEvent"
    | IssueComment(issueUrl: Url, prUrl: Url, title: string, body: string)
      // "IssueCommentEvent": issue.html_url, issue.pull_request.html_url, issue.title, comment.body
    | Other(kind: string)                                            // any other tag; never inspected

  /** One raw record; `createdAt` is None when its timestamp does not parse. */
  datatype Event = Event(createdAt: Option<int>, payload: Payload)

  /** A parsed event paired with its UTC time, as the summary stores it. */
  datatype Timed = Timed(time: int, payload: Payload)

  /** The last microsecond of the day starting at `dayStart` (23:59:59.999999). */
  function EndOfDay(dayStart: int): (e: int)
    ensures e - dayStart == DayMicros - 1
  {
    dayStart + DayMicros - 1
  }

  /** The window test is inclusive at both ends. */
  predicate InWindow(t: int, dayStart: int)
  {
    dayStart <= t <= EndOfDay(dayStart)
  }

  /** Python's `sub in s` on strings. */
  predicate HasSubstring(s: string, sub: string)
    decreases |s|
  {
    if |s| < |sub| then false
    else if s[..|sub|] == sub then true
    else |s| > 0 && HasSubstring(s[1..], sub)
  }

  /** `sub` occurs in `s` starting at index `i`. */
  predicate OccursAt(s: string, sub: string, i: int)
  {
    0 <= i && i + |sub| <= |s| && s[i..i + |sub|] == sub
  }

  /** HasSubstring finds `sub` exactly when it occurs at some index of `s`. */
  lemma {:induction false} HasSubstringAt(s: string, sub: string)
    ensures HasSubstring(s, sub) <==> exists i :: OccursAt(s, sub, i)
    decreases |s|
  {
    if |s| < |sub| {
    } else if s[..|sub|] == sub {
      assert OccursAt(s, sub, 0);
    } else {
      HasSubstringAt(s[1..], sub);
      if HasSubstring(s[1..], sub) {
        var i :| OccursAt(s[1..], sub, i);
        assert s[1..][i..i + |sub|] == s[i + 1..i + 1 + |sub|];
        assert OccursAt(s, sub, i + 1);
      }
      if exists i :: OccursAt(s, sub, i) {
        var i :| OccursAt(s, sub, i);
        assert i != 0;
        assert s[1..][i - 1..i - 1 + |sub|] == s[i..i + |sub|];
        assert OccursAt(s[1..], sub, i - 1);
      }
    }
  }

  /** The issue behind a comment is a pull request when its URL contains "/pull/". */
  predicate IsPullUrl(url: Url)
  {
    HasSubstring(url, "/pull/")
  }

  /** An issue comment on a pull request: the only comments tied to a PR key. */
  predicate IsPrComment(p: Payload)
  {
    p.IssueComment? && IsPullUrl(p.issueUrl)
  }

  /** The PR key an event is filed under, or None for a general event. */
  function PrKey(p: Payload): (k: Option<Url>)
    ensures k.Some? <==> (p.PullRequest? || p.Review? || IsPrComment(p))
    ensures (p.PullRequest? || p.Review?) ==> k == Some(p.url)
    ensures IsPrComment(p) ==> k == Some(p.prUrl)
  {
    match p
    case PullRequest(_, url, _) => Some(url)
    case Review(url, _) => Some(url)
    case IssueComment(issueUrl, prUrl, _, _) => if IsPullUrl(issueUrl) then Some(prUrl) else None
    case Other(_) => None
  }

  /** A sequence without repeated elements. */
  predicate Distinct<T(==)>(s: seq<T>)
  {
    forall i, j | 0 <= i < j < |s| :: s[i] != s[j]
  }

  /** Dropping the last element of a list without duplicates leaves one without
      duplicates that does not hold that element. */
  lemma DistinctInit<T>(s: seq<T>)
    requires Distinct(s) && s != []
    ensures Distinct(s[..|s| - 1]) && s[|s| - 1] !in s[..|s| - 1]
  {
    var init := s[..|s| - 1];
    forall i | 0 <= i < |init|
      ensures init[i] != s[|s| - 1]
    {
      assert init[i] == s[i];
    }
  }
}
