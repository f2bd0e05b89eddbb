# Daily GitHub summary, modelled in Dafny

`github-daily-summary.py` reports one user's GitHub activity for each day of a date range. For
each day it fetches the user's recent events and keeps those stamped inside the day. It files
every pull-request event, review and PR comment under the URL of its pull request, and every
other event under "general". It then walks each PR's timeline in time order. The first
significant event of a PR decides its single entry in the summary: opened, closed, reviewed or
commented. Finally it returns the summary, or renders it as markdown in a compact or a detailed
form.

This project models that pipeline for one day, plus the day range and the two argument checks of
the command line. Each stage is its own module. The model keeps the source's loops where the
source has them, and each loop is proved against a specification function:

- `Classifier.Classify` (lines 39-57);
- `Aggregator.Aggregate` (lines 67-97);
- `GeneralComments.CollectGeneralComments` (lines 99-103);
- `Renderer.RenderMarkdown` with `EmitSection`, `EmitCompact`, `GroupComments`, `EmitGroup` and
  `EmitDetailed` (lines 105-143).

The lemmas then state what the source promises about those functions:

- every kept event is routed to exactly one place;
- a PR gets at most one entry across the four PR buckets, and only PRs seen that day get one;
- the earliest event of a PR decides that entry, with ties going to the event fetched first;
- the sort is stable;
- the markdown prints a section header exactly when its list is non-empty, and lists every entry.

Modules, in dependency order:

- `Events`: payloads, timestamps, the day window and the PR key of an event.
- `Timeline`: order-preserving selection and the stable sort by time.
- `Classifier`: lines 35-57.
- `Aggregator`: lines 59-97.
- `GeneralComments`: lines 99-103.
- `Renderer`: lines 105-143.
- `DayRange`: lines 148-150 and 169-178.
- `DailySummary`: one call of `get_github_daily_summary` with the fetch abstracted (lines 11-145).

Modelling choices:

- **Timestamps** are integers: microseconds since an epoch, in UTC. A day is the closed window
  from `dayStart` to `dayStart + 86_400_000_000 - 1` (`datetime.time.min` to `datetime.time.max`).
  A timestamp that fails to parse is `None`.
- **Events** carry only the fields the code reads. `PullRequest(action, url, title)` stands for a
  `PullRequestEvent`. `Review(url, title)` stands for a `PullRequestReviewEvent`.
  `IssueComment(issueUrl, prUrl, title, body)` stands for an `IssueCommentEvent`: `issueUrl` is
  the issue's `html_url`, and `prUrl` is `issue.pull_request.html_url`. `Other(kind)` stands for
  any other event type.
- **PR references** in the summary buckets are `PrRef(title, url)` pairs, not the stored
  `"[title](url)"` strings. `Format` renders a pair as that string, and the renderer prints it.
- **Insertion-ordered dictionaries** are a key sequence in first-insertion order plus a map:
  `pr_events`, `summary["pr_comments"]` and `comment_groups`.
- **`list.sort(key=lambda x: x[0])`** is `Timeline.SortByTime`, an insertion sort on values that
  is proved sorted, a permutation and stable. Python's sort is stable, and stability is what the
  aggregator's "first event wins" rule relies on when two events share a timestamp.
- **Markdown** is specified as a list of lines. The text is each line followed by `"\n"`, which
  is how the source builds it with `+=`.

Behaviour worth noting:

- **A PR opened and later commented on gets no comment entry.** The opening event marks the PR
  processed (line 84), so line 93 skips the later comment and `pr_comments` stays empty. Line 119
  prints the PR comment section only when `pr_comments` is non-empty, so the markdown output then
  has no PR comment section at all, not even in detailed mode where `all_pr_comments` holds the
  comment. `DailySummary.OpenedThenCommented` and `DailySummary.OpenedThenCommentedDay` prove this
  outcome for a PR opened at time 10 and commented on at time 20.
- **The argument errors go to standard output.** Lines 170 and 177 print them with `print`, not to
  standard error.
- **`--summary` without markdown output exits with status 0.** Line 178 calls `sys.exit()` with
  no argument. `DayRange.CheckArguments` records status 0 for this case and status 1 for a start
  date after the end date (line 171).
- **A missing token is a per-day error.** Line 14 returns it as that day's error string; the run
  goes on to the next day. It is part of the abstracted fetch outcome `DailySummary.Fetch`.

## Model

| member | source | states |
|---|---|---|
| Events.HasSubstringAt | github-daily-summary.py:52 | Python's `"/pull/" in url` test holds exactly when the text occurs at some index of the URL. |
| Events.PrKey | github-daily-summary.py:46-57 | A pull-request event and a review are keyed by their PR URL. An issue comment is keyed by its PR URL exactly when its issue URL contains `/pull/`. Every other event has no key and is general. |
| Events.InWindow | github-daily-summary.py:45 | A time is inside the day exactly when it lies between the start of the day and one microsecond before the next day starts, both ends included. Defined, not proved. |
| Classifier.Kept | github-daily-summary.py:39-45 | The kept events are no more than the fetched ones, and every kept time lies inside the inclusive day window. |
| Classifier.KeptMembership | github-daily-summary.py:39-45 | A timed event is kept exactly when some fetched event has that timestamp, parsed, inside the window, with the same payload. |
| Classifier.KeptAppend | github-daily-summary.py:39-45 | Filtering distributes over concatenation of the fetched list: the events are judged one at a time. |
| Classifier.DroppedEventIsInvisible | github-daily-summary.py:40-45 | An event whose timestamp does not parse, or lies outside the day, can be removed from the input without changing the kept events. |
| Classifier.Admit | github-daily-summary.py:40-45 | An event is kept, once and with its parsed time and payload, exactly when its timestamp parses and lies inside the day window; otherwise it yields nothing. |
| Classifier.KeysOf | github-daily-summary.py:35-55 | The keys of `pr_events`, in first-seen order, have no duplicates. |
| Classifier.KeysOfMembership | github-daily-summary.py:46-55 | A PR key is a key of `pr_events` exactly when some kept event is filed under it. |
| Classifier.RouteStep | github-daily-summary.py:46-57 | Appending one kept event extends exactly its own PR's timeline, or the general list, and the all-PR-comments list when it is a PR comment. A new key goes to the end of the key order. |
| Classifier.RoutingIsExclusive | github-daily-summary.py:46-57 | A kept event is general exactly when it has no PR key. It is in the timeline of key `k` exactly when its key is `k`. It is in `all_pr_comments` exactly when it is a PR comment, and it is then also in its PR's timeline. |
| Classifier.TimelinesArePure | github-daily-summary.py:35-55 | Every timeline of `pr_events` is non-empty and holds only events of its own key. |
| Classifier.RoutedKeyedStep | github-daily-summary.py:47-55 | Appending a keyed event to the defaultdict `pr_events[key]`, and a PR comment to `all_pr_comments`, keeps the four lists equal to the routing functions of the longer input. |
| Classifier.RoutedGeneralStep | github-daily-summary.py:56-57 | Appending a general event to `general_events` keeps the four lists equal to the routing functions of the longer input. |
| Classifier.Route | github-daily-summary.py:46-57 | Filing one event keeps `pr_events`, its key order, `general_events` and `all_pr_comments` equal to the routing functions of the events seen so far. |
| Classifier.Classify | github-daily-summary.py:35-57 | The classification loop returns the key order `KeysOf`, the map `Timelines`, and the general and PR-comment selections of the kept events, each in fetch order. |
| Timeline.Filter | github-daily-summary.py:46-57 | A selection is no longer than its input and holds only input elements that satisfy the predicate. |
| Timeline.FilterMembership | github-daily-summary.py:46-57 | An element is selected exactly when it is in the input and satisfies the predicate. |
| Timeline.SortByTime | github-daily-summary.py:72 | The sorted timeline is in non-decreasing time order and is a permutation of its input. |
| Timeline.InsertSorted | github-daily-summary.py:72 | Inserting into a sorted timeline keeps it sorted. |
| Timeline.FilterSortCommute | github-daily-summary.py:99-101 | Selecting after sorting equals sorting after selecting. |
| Timeline.SortIsStable | github-daily-summary.py:72 | For every timestamp, the events with that timestamp keep their input order: sorting is stable. The sorts at lines 99 and 134 rely on the same property. |
| Timeline.SortSortedIsIdentity | github-daily-summary.py:72 | Sorting an already sorted timeline changes nothing. |
| Timeline.SortedHeadIsEarliest | github-daily-summary.py:72-73 | The head of a sorted non-empty timeline is one of its events, no later than any other. It is the first input event with its timestamp. |
| Aggregator.Step | github-daily-summary.py:74-97 | One event of a sorted timeline. A pull-request event of an unprocessed PR records its title and marks the PR processed; "opened" also lists it as opened and in `prs_opened_urls`, "closed" lists it as closed. A review of a PR neither processed nor opened lists it as reviewed and marks it processed. A `/pull/` comment on an unprocessed PR records its title, appends its text to `pr_comments` and marks it processed. Everything else is skipped. Defined, not proved; the lemmas below state its properties. |
| Aggregator.Walk | github-daily-summary.py:73-97 | The inner loop: `Step` applied to each event of one sorted timeline, in order. Defined, not proved. |
| Aggregator.Aggregated | github-daily-summary.py:71-97 | The outer loop: each key of `pr_events`, in insertion order, walks its timeline sorted by time, starting from the empty summary. Defined, not proved. |
| Aggregator.StepIgnoresProcessed | github-daily-summary.py:77-93 | An event of a PR that is already processed changes nothing. |
| Aggregator.StepIgnoresGeneral | github-daily-summary.py:74-97 | An event with no PR key changes nothing in the aggregation. |
| Aggregator.StepOnFresh | github-daily-summary.py:74-97 | For a PR not yet processed, one event puts the key in exactly the bucket its kind names: "opened", "closed", review or comment. Any other action goes nowhere. The key is marked processed, "opened" also goes to `prs_opened_urls`, and the title is recorded unless the event is a review. |
| Aggregator.StepKeepsConsistent | github-daily-summary.py:74-97 | One event keeps the invariant: each key has at most one entry across the four buckets, every entry's key is processed, and `prs_opened_urls` lists exactly the opened bucket. It also keeps `pr_comments` holding exactly the comment keys, one comment each, and every titled key processed. |
| Aggregator.WalkKeepsConsistent | github-daily-summary.py:73-97 | Walking a whole timeline keeps that invariant. |
| Aggregator.AggregatedIsConsistent | github-daily-summary.py:67-97 | The aggregate of every timeline satisfies that invariant. |
| Aggregator.OpenedIsExclusive | github-daily-summary.py:79-88 | A PR counted as opened is listed once as opened, and never as reviewed, closed or commented. |
| Aggregator.WalkFirstWins | github-daily-summary.py:73-97 | Walking a timeline of an unprocessed key has exactly the effect of its first event alone; every later event is ignored. |
| Aggregator.FirstEventDecides | github-daily-summary.py:67-97 | After all keys are walked, the four buckets list, in key order, exactly the keys whose first event has that kind, with that event's title. The comment entry of a key holds exactly the text of its first comment. Processed keys are exactly the walked keys, and a key has a title exactly when its first event is not a review. |
| Aggregator.FirstEventPlacesKey | github-daily-summary.py:71-97 | A given key is in the opened, closed, reviewed or comment bucket exactly when its first sorted event has that kind. Its `pr_comments` entry, if any, is the text of that first comment. |
| Aggregator.ClaimedKeysAreWalked | github-daily-summary.py:71-97 | Every key with an entry in the buckets is a key of `pr_events`, and it has exactly one entry. |
| Aggregator.Aggregate | github-daily-summary.py:67-97 | The nested loop, with its sets and maps updated in place, computes the aggregate `Aggregated(keys, prEvents)`, about which the lemmas above are proved. |
| GeneralComments.CommentTexts | github-daily-summary.py:100-103 | One stored text `"Comment: " + body` per event, in the same order. |
| GeneralComments.CollectGeneralComments | github-daily-summary.py:99-103 | Sorting the general events, then keeping the text of each issue comment, gives the texts of the sorted issue comments among the general events. |
| GeneralComments.GeneralCommentsAreTheComments | github-daily-summary.py:99-103 | The texts come from exactly the issue comments among the general events, each once, and from nothing else. They are in non-decreasing time order, with ties in fetch order. |
| Renderer.CommentLines | github-daily-summary.py:119-138 | The PR comment section: nothing when `pr_comments` has no keys; otherwise, in summary mode, the compact header and one line per `pr_comments` key, and in detailed mode the detailed header and the groups of `all_pr_comments` in first-seen order. Defined, not proved. |
| Renderer.MarkdownLines | github-daily-summary.py:105-142 | The lines of the markdown text: the opened, closed and reviewed sections, the PR comment section, then the general section, in that order. Defined, not proved. |
| Renderer.Markdown | github-daily-summary.py:105-143 | The returned text: each line of `MarkdownLines` followed by a newline. Defined, not proved. |
| Renderer.MarkdownEmptyIff | github-daily-summary.py:105-143 | The markdown text is empty exactly when all of the opened, closed, reviewed, `pr_comments` and general lists are empty. |
| Renderer.SectionHeaders | github-daily-summary.py:107-118 | A section holds a header only if it is its own header, and only when its list is non-empty. The general section at lines 139-142 is built the same way. |
| Renderer.HeadersAreGated | github-daily-summary.py:107-142 | Each of the six headers is printed exactly when its list is non-empty. The compact or the detailed PR comment header is printed exactly when `pr_comments` is non-empty and the mode matches, whatever `all_pr_comments` holds. |
| Renderer.EveryEntryListed | github-daily-summary.py:107-142 | Every opened, closed and reviewed reference and every general comment appears as a `"- "` bullet. In compact mode every `pr_comments` key appears with its recorded title, or its URL when it has none. |
| Renderer.DetailedListsEveryComment | github-daily-summary.py:126-138 | In detailed mode every PR comment of `all_pr_comments` has a group: a contiguous block of the section that starts with its own PR's line and holds the comment's nested line. This includes PRs that have no `pr_comments` entry. |
| Renderer.DetailedLineCount | github-daily-summary.py:126-138 | The detailed section prints exactly one line per commented PR plus one line per comment of `all_pr_comments`. |
| Renderer.EmitSection | github-daily-summary.py:107-118 | Appends the header and one bullet per item, or nothing when there are no items. The general section at lines 139-142 uses it too. |
| Renderer.EmitCompact | github-daily-summary.py:120-124 | Appends the compact header and one `[title](url)` line per `pr_comments` key, in key order, with the `pr_title_map.get(url, url)` fallback. |
| Renderer.GroupComments | github-daily-summary.py:127-132 | The grouping loop yields `comment_groups`: the PR keys in first-seen order, each mapped to its comments in fetch order. |
| Renderer.EmitGroup | github-daily-summary.py:133-138 | Appends the PR line, then one nested line per comment of the group, sorted stably by time. |
| Renderer.EmitDetailed | github-daily-summary.py:126-138 | Appends the detailed header, then every group in first-seen order. |
| Renderer.RenderMarkdown | github-daily-summary.py:105-143 | The `+=` loops produce exactly the text `Markdown(...)`, about which the lemmas above are proved. |
| DayRange.DateRange | github-daily-summary.py:148-150 | The range has `end - start + 1` days, or none when the end is before the start, and day `i` is `start + i`. |
| DayRange.DateRangeSplit | github-daily-summary.py:148-150 | Two adjacent ranges concatenate to the range spanning both. |
| DayRange.DateRangeMembership | github-daily-summary.py:148-150 | A day is in the range exactly when it lies between the start and the end, inclusive. |
| DayRange.CheckArguments | github-daily-summary.py:169-178 | The run proceeds exactly when the start is not after the end and `--summary` comes only with markdown. A start after the end aborts with its message and status 1, checked first. `--summary` without markdown aborts with its message and status 0. |
| DayRange.CheckedRangeIsNonEmpty | github-daily-summary.py:169-188 | Once the checks pass, the day loop visits at least one day, from `start` to `end`. |
| DailySummary.DayTally | github-daily-summary.py:35-103 | The day's summary: the aggregate of the kept events' PR timelines, with the texts of the general issue comments, sorted by time, as `general_comments`. Defined, not proved. |
| DailySummary.DayReport | github-daily-summary.py:105-145 | The day's result: the fetch error, or the markdown text of the summary, or the summary itself, as the output format says. Defined, not proved. |
| DailySummary.DailySummaryFor | github-daily-summary.py:35-145 | One day classifies, aggregates, collects general comments, then renders markdown or returns the summary. A failed fetch returns its error. The result is `DayReport(...)`. |
| DailySummary.ClassifiedIsWellGrouped | github-daily-summary.py:35-71 | Classification hands the aggregator distinct keys, each with a non-empty timeline of its own events. |
| DailySummary.DroppedEventChangesNothing | github-daily-summary.py:40-45 | Removing an event with an unparsable or out-of-day timestamp leaves the day's report unchanged, in both output formats. |
| DailySummary.EarliestEventDecides | github-daily-summary.py:39-97 | For a PR seen on the day, the deciding event is a kept event of that PR with the earliest time, the first fetched among those with that time. The PR is in exactly the bucket that event names: opened, closed, reviewed, or commented (`pr_comments`). Its comment entry is that event's text. |
| DailySummary.OnlySeenKeysAppear | github-daily-summary.py:46-97 | Only PRs with a kept event that day appear in the summary's PR buckets, and each appears once. |
| DailySummary.OpenedThenCommented | github-daily-summary.py:71-97 | For any input whose kept events are a PR opened at time 10 and then commented on at time 20, the PR is listed as opened, no key is listed as commented, and `pr_comments` is empty. |
| DailySummary.OpenedThenCommentedDay | github-daily-summary.py:39-143 | On the concrete two-event input for the day starting at 0, the PR is listed as opened and `pr_comments` is empty. Neither the compact nor the detailed PR comment header is printed, in either mode. |

## Left out

- The HTTP request, the `GITHUB_TOKEN` lookup and the JSON decoding (lines 12-33) are left out. They are network and environment I/O. Their outcome is the parameter `DailySummary.Fetch`: the decoded events, or the error string the function returns.
- Timestamp parsing with `dateutil` and conversion with `pytz` (lines 41-43) are left out. They are library calls. A timestamp is an integer count of microseconds in UTC, or `None` when parsing fails.
- Argument parsing with `argparse`, date parsing with `strptime` and its error (lines 152-167) are left out. They are library calls and I/O. Days are integers.
- The printing of the report (lines 180-194) is left out: headings, `strftime`/`isoformat`, and `json.dumps` of the collected list. It is output formatting. The model stops at each day's `DailySummary.Report` and the list of days from `DayRange.DateRange`.
- The `print` and `sys.exit` of the argument checks are not modelled. They are I/O. `DayRange.CheckArguments` returns the message and the exit status instead.
- Timeline.SortByTime does not model the in-place Timsort of `list.sort`. It is an insertion sort on values, proved sorted, a permutation and stable, which is all the code relies on.
- Renderer.GroupComments stores each comment's timed event rather than the `(time, "Comment: " + body)` pair of line 132. The text is derived when the line is printed, and the sort order is the same.
- Renderer.RenderMarkdown requires every event in `all_pr_comments` to be a PR comment. Classification guarantees this; the source would raise a `KeyError` otherwise.
- A `/pull/` issue comment without a `pull_request` field would raise a `KeyError` at line 53. It is not modelled: the model's comment payload always carries the PR URL.
- `Payload.Other` stands for every event type the code does not inspect. Only its type tag is kept.
