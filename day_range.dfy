/** The day range of the command line (github-daily-summary.py, lines 148-150)
    and the two argument checks that guard it (lines 169-178). Days are
    integers counting days since an epoch. */
module DayRange {

  /** `daterange(start, end)`: the days `start + n` for `n` in `range(end - start + 1)`. */
  function DateRange(start: int, end: int): (days: seq<int>)
    ensures |days| == if end < start then 0 else end - start + 1
    ensures forall i | 0 <= i < |days| :: days[i] == start + i
    decreases end - start
  {
    if end < start then [] else DateRange(start, end - 1) + [end]
  }

  /** Two adjacent ranges make up the range that spans them both. */
  lemma DateRangeSplit(start: int, mid: int, end: int)
    requires start - 1 <= mid <= end
    ensures DateRange(start, end) == DateRange(start, mid) + DateRange(mid + 1, end)
  {
    var whole, left, right := DateRange(start, end), DateRange(start, mid), DateRange(mid + 1, end);
    assert |whole| == |left| + |right|;
    forall i | 0 <= i < |whole|
      ensures whole[i] == (left + right)[i]
    {
      if i >= |left| {
        assert (left + right)[i] == right[i - |left|];
      }
    }
  }

  /** The range holds exactly the days from `start` through `end`, each once, ascending. */
  lemma DateRangeMembership(start: int, end: int, d: int)
    ensures d in DateRange(start, end) <==> start <= d <= end
  {
    var days := DateRange(start, end);
    if start <= d <= end {
      assert days[d - start] == d;
    }
  }

  datatype OutputFormat = Json | Markdown

  /** What the checks decide: go on, or print `message` and exit with `status`. */
  datatype Outcome = Proceed | Abort(message: string, status: int)

  const OrderError: string := "Error: Start date cannot be after end date."
  const SummaryError: string := "Error: --summary flag is only valid with markdown output."

  /** Lines 169-178, in their order: a start after the end exits with status 1;
      `--summary` without markdown output exits through `sys.exit()`, status 0. */
  function CheckArguments(start: int, end: int, format: OutputFormat, summaryMode: bool): (r: Outcome)
    ensures r.Proceed? <==> start <= end && (summaryMode ==> format == Markdown)
    ensures start > end ==> r == Abort(OrderError, 1)
    ensures start <= end && summaryMode && format != Markdown ==> r == Abort(SummaryError, 0)
  {
    if start > end then Abort(OrderError, 1)
    else if summaryMode && format != Markdown then Abort(SummaryError, 0)
    else Proceed
  }

  /** Once the checks pass, the loop of lines 180-194 visits at least one day:
      the first is `start`, the last `end`. */
  lemma CheckedRangeIsNonEmpty(start: int, end: int, format: OutputFormat, summaryMode: bool)
    requires CheckArguments(start, end, format, summaryMode).Proceed?
    ensures var days := DateRange(start, end);
            days != [] && days[0] == start && days[|days| - 1] == end
  {
  }
}
