/** `services/reporting.py`: the Markdown summary, built line by line.
    Number formatting (`:.1f`, `:+.0f`, `:+.1%`, `str()` of a number) and
    the run date are parameters; the lines are joined with "\n". */
module Reporting {
  import opened Wrappers
  import opened Seqs
  import opened Strings
  import opened Sorting
  import opened Models

  /** The number-to-text conversions the report uses. */
  datatype Fmt = Fmt(
    percentage: real -> string,     // `_fmt_percentage`
    minutes: real -> string,        // `_fmt_minutes`
    whole: real -> string,          // `:.0f`
    signedWhole: real -> string,    // `:+.0f`
    signedPercent: real -> string,  // `:+.1%`
    realText: real -> string,       // `str()` of a float
    signedReal: real -> string,     // `:+`
    intText: int -> string)         // `str()` of an int

  const DefaultTopN: int := 5
  const HistoryShown: nat := 4

  /** A bullet line: it starts with '-'. */
  predicate IsItem(line: string) { |line| > 0 && line[0] == '-' }

  /** A section header line: it starts with "### ". */
  predicate IsHeader(line: string) {
    |line| >= 4 && line[0] == '#' && line[1] == '#' && line[2] == '#' && line[3] == ' '
  }

  /** A community header line: it starts with "\n## ". */
  predicate IsCommunityHeader(line: string) {
    |line| >= 4 && line[0] == '\n' && line[1] == '#' && line[2] == '#' && line[3] == ' '
  }

  function Headers(lines: seq<string>): seq<string> {
    if lines == [] then []
    else (if IsHeader(lines[0]) then [lines[0]] else []) + Headers(lines[1..])
  }

  function CommunityHeaders(lines: seq<string>): seq<string> {
    if lines == [] then []
    else (if IsCommunityHeader(lines[0]) then [lines[0]] else []) + CommunityHeaders(lines[1..])
  }

  lemma HeadersAppend(a: seq<string>, b: seq<string>)
    ensures Headers(a + b) == Headers(a) + Headers(b)
    ensures CommunityHeaders(a + b) == CommunityHeaders(a) + CommunityHeaders(b)
  {
    SectionHeadersAppend(a, b);
    CommunityHeadersAppend(a, b);
  }

  lemma {:induction false} SectionHeadersAppend(a: seq<string>, b: seq<string>)
    ensures Headers(a + b) == Headers(a) + Headers(b)
  {
    if a == [] {
      assert a + b == b;
    } else {
      var ab := a + b;
      assert ab[0] == a[0] && ab[1..] == a[1..] + b;
      SectionHeadersAppend(a[1..], b);
      var h := if IsHeader(a[0]) then [a[0]] else [];
      assert Headers(ab) == h + Headers(a[1..] + b);
      assert Headers(a) == h + Headers(a[1..]);
    }
  }

  lemma {:induction false} CommunityHeadersAppend(a: seq<string>, b: seq<string>)
    ensures CommunityHeaders(a + b) == CommunityHeaders(a) + CommunityHeaders(b)
  {
    if a == [] {
      assert a + b == b;
    } else {
      var ab := a + b;
      assert ab[0] == a[0] && ab[1..] == a[1..] + b;
      CommunityHeadersAppend(a[1..], b);
      var c := if IsCommunityHeader(a[0]) then [a[0]] else [];
      assert CommunityHeaders(ab) == c + CommunityHeaders(a[1..] + b);
      assert CommunityHeaders(a) == c + CommunityHeaders(a[1..]);
    }
  }

  lemma {:induction false} ItemsHaveNoHeaders(lines: seq<string>)
    requires forall i :: 0 <= i < |lines| ==> IsItem(lines[i]) || lines[i] == ""
    ensures Headers(lines) == [] && CommunityHeaders(lines) == []
  {
    if lines != [] {
      ItemsHaveNoHeaders(lines[1..]);
    }
  }

  // ---------------------------------------------------------------------
  // `_fmt_top_items`

  function CountKey(kv: (string, int)): int { kv.1 }

  predicate IntLe(a: int, b: int) { a <= b }

  lemma IntLeIsTotalOrder()
    ensures TotalOrder(IntLe)
  {
  }

  /** The items shown: by count, highest first, ties in dict order, at most `topN`. */
  function TopItems(items: Counts, topN: int): (r: seq<(string, int)>)
    ensures |r| <= |items|
    ensures topN >= 0 ==> |r| <= topN
  {
    PyPrefix(SortDesc(items, CountKey, IntLe), topN)
  }

  function ItemText(kv: (string, int), intText: int -> string): string {
    kv.0 + " (" + intText(kv.1) + ")"
  }

  function ItemTexts(items: seq<(string, int)>, intText: int -> string): (r: seq<string>)
    ensures |r| == |items|
    ensures forall i :: 0 <= i < |items| ==> r[i] == ItemText(items[i], intText)
  {
    seq(|items|, i requires 0 <= i < |items| => ItemText(items[i], intText))
  }

  /** `_fmt_top_items`: "n/a" for no items, else "name (count)" joined by ", ". */
  function FmtTopItems(items: Counts, topN: int, intText: int -> string): (r: string)
    ensures items == [] ==> r == "n/a"
    ensures items != [] ==> r == Join(ItemTexts(TopItems(items, topN), intText), ", ")
  {
    if items == [] then "n/a" else Join(ItemTexts(TopItems(items, topN), intText), ", ")
  }

  /** With a positive `topN` the text is "n/a" exactly when there are no items. */
  lemma FmtTopItemsSentinel(items: Counts, topN: int, intText: int -> string)
    requires topN > 0
    ensures FmtTopItems(items, topN, intText) == "n/a" <==> items == []
  {
    if items != [] {
      var shown := TopItems(items, topN);
      assert |shown| > 0;
      var parts := ItemTexts(shown, intText);
      JoinStartsWithFirst(parts, ", ");
      var r := FmtTopItems(items, topN, intText);
      var n := |shown[0].0|;
      assert parts[0][n + 1] == '(';
      assert r[n + 1] == '(' && r[n + 1] in r;
      assert '(' !in "n/a";
    }
  }

  /** At most `topN` items, all from the input, by non-increasing count, the
      highest counts of all, and equal counts in the input's order. */
  lemma TopItemsProperties(items: Counts, topN: int, count: int)
    ensures var r := TopItems(items, topN);
      var sorted := SortDesc(items, CountKey, IntLe);
      && (topN >= 0 ==> |r| <= topN)
      && multiset(sorted) == multiset(items)
      && r == sorted[..|r|]
      && (forall i, j :: 0 <= i < j < |r| ==> r[j].1 <= r[i].1)
      && (forall i, j :: 0 <= i < |r| <= j < |sorted| ==> sorted[j].1 <= r[i].1)
      && WithKey(sorted, CountKey, count) == WithKey(items, CountKey, count)
  {
    var sorted := SortDesc(items, CountKey, IntLe);
    var r := TopItems(items, topN);
    IntLeIsTotalOrder();
    SortDescSorted(items, CountKey, IntLe);
    SortDescStable(items, CountKey, IntLe, count);
    assert r == sorted[..|r|];
    forall i, j | 0 <= i < j < |sorted| ensures sorted[j].1 <= sorted[i].1 {
      assert IntLe(CountKey(sorted[j]), CountKey(sorted[i]));
    }
    forall i, j | 0 <= i < j < |r| ensures r[j].1 <= r[i].1 {
      assert r[i] == sorted[i] && r[j] == sorted[j];
    }
    forall i, j | 0 <= i < |r| <= j < |sorted| ensures sorted[j].1 <= r[i].1 {
      assert r[i] == sorted[i];
    }
  }

  // ---------------------------------------------------------------------
  // `_format_trends`

  /** The direction marker of a change. */
  function Direction(delta: real): (r: string)
    ensures r == "↑" <==> delta > 0.0
    ensures r == "↓" <==> delta < 0.0
    ensures r == "→" <==> delta == 0.0
  {
    if delta > 0.0 then "↑" else if delta < 0.0 then "↓" else "→"
  }

  function TrendLine(t: Trend, fmt: Fmt): (r: string)
    ensures IsItem(r)
  {
    if t.metric == PostsMetric then
      "- Posts WoW: " + fmt.whole(t.current) + " vs " + fmt.whole(t.previous)
        + " (" + Direction(t.delta) + " " + fmt.signedWhole(t.delta) + ")"
    else if t.metric == RateMetric then
      "- Unanswered rate WoW: " + fmt.percentage(t.current) + " vs " + fmt.percentage(t.previous)
        + " (" + Direction(t.delta) + " " + fmt.signedPercent(t.delta) + ")"
    else
      "- " + t.metric + ": " + fmt.realText(t.current) + " (prev " + fmt.realText(t.previous)
        + ", delta " + fmt.signedReal(t.delta) + ")"
  }

  function TrendLines(trends: seq<Trend>, fmt: Fmt): (r: seq<string>)
    ensures trends == [] ==> r == ["- No prior-week data"]
    ensures trends != [] ==> |r| == |trends|
  {
    if trends == [] then ["- No prior-week data"]
    else seq(|trends|, i requires 0 <= i < |trends| => TrendLine(trends[i], fmt))
  }

  lemma ContainsMiddle(a: string, b: string, c: string)
    ensures Contains(a + b + c, b)
  {
    assert (a + b + c)[|a|..|a| + |b|] == b;
    assert Occurs(b, a + b + c, |a|);
  }

  /** A week-over-week line carries the marker of its delta's sign. */
  lemma TrendLineMarksDirection(t: Trend, fmt: Fmt)
    requires t.metric == PostsMetric || t.metric == RateMetric
    ensures Contains(TrendLine(t, fmt), " (" + Direction(t.delta) + " ")
  {
    var mark := " (" + Direction(t.delta) + " ";
    if t.metric == PostsMetric {
      var head := "- Posts WoW: " + fmt.whole(t.current) + " vs " + fmt.whole(t.previous);
      assert TrendLine(t, fmt) == head + mark + (fmt.signedWhole(t.delta) + ")");
      ContainsMiddle(head, mark, fmt.signedWhole(t.delta) + ")");
    } else {
      var head := "- Unanswered rate WoW: " + fmt.percentage(t.current) + " vs " + fmt.percentage(t.previous);
      assert TrendLine(t, fmt) == head + mark + (fmt.signedPercent(t.delta) + ")");
      ContainsMiddle(head, mark, fmt.signedPercent(t.delta) + ")");
    }
  }

  lemma TrendLineIsItem(t: Trend, fmt: Fmt)
    ensures IsItem(TrendLine(t, fmt))
  {
  }

  /** Each trend gets one bullet line, in order. */
  lemma TrendLinesProperties(trends: seq<Trend>, fmt: Fmt)
    ensures var r := TrendLines(trends, fmt);
      && (trends != [] ==> forall i :: 0 <= i < |trends| ==> r[i] == TrendLine(trends[i], fmt))
      && (forall i :: 0 <= i < |r| ==> IsItem(r[i]))
  {
    forall i | 0 <= i < |trends| {
      TrendLineIsItem(trends[i], fmt);
    }
  }

  /** `_format_trends`. */
  method FormatTrends(trends: seq<Trend>, fmt: Fmt) returns (lines: seq<string>)
    ensures lines == TrendLines(trends, fmt)
  {
    if trends == [] {
      return ["- No prior-week data"];
    }
    lines := [];
    for i := 0 to |trends|
      invariant |lines| == i
      invariant forall j :: 0 <= j < i ==> lines[j] == TrendLine(trends[j], fmt)
    {
      var trend := trends[i];
      var line;
      if trend.metric == PostsMetric {
        var direction := if trend.delta > 0.0 then "↑" else if trend.delta < 0.0 then "↓" else "→";
        line := "- Posts WoW: " + fmt.whole(trend.current) + " vs " + fmt.whole(trend.previous)
          + " (" + direction + " " + fmt.signedWhole(trend.delta) + ")";
      } else if trend.metric == RateMetric {
        var direction := if trend.delta > 0.0 then "↑" else if trend.delta < 0.0 then "↓" else "→";
        line := "- Unanswered rate WoW: " + fmt.percentage(trend.current) + " vs " + fmt.percentage(trend.previous)
          + " (" + direction + " " + fmt.signedPercent(trend.delta) + ")";
      } else {
        line := "- " + trend.metric + ": " + fmt.realText(trend.current) + " (prev " + fmt.realText(trend.previous)
          + ", delta " + fmt.signedReal(trend.delta) + ")";
      }
      lines := lines + [line];
    }
  }

  // ---------------------------------------------------------------------
  // `_format_unanswered`

  const QuestionSuffix := " (question)"

  function UnansweredLine(post: UnansweredSummary): (r: string)
    ensures IsItem(r)
  {
    "- [" + post.title + "](" + post.permalink + ")" + (if post.questionLike then QuestionSuffix else "")
  }

  function UnansweredLines(posts: seq<UnansweredSummary>): (r: seq<string>)
    ensures posts == [] ==> r == ["- None found"]
    ensures posts != [] ==> |r| == |posts|
  {
    if posts == [] then ["- None found"]
    else seq(|posts|, i requires 0 <= i < |posts| => UnansweredLine(posts[i]))
  }

  predicate EndsWith(s: string, suffix: string) {
    |suffix| <= |s| && s[|s| - |suffix|..] == suffix
  }

  /** A line is marked " (question)" exactly when the post is question-like
      (for a permalink of ten or more characters without spaces, as every
      "https://reddit.com/..." link is), and "(question)" then occurs in it. */
  lemma UnansweredLineMarksQuestions(post: UnansweredSummary)
    requires |post.permalink| >= 10 && ' ' !in post.permalink
    ensures EndsWith(UnansweredLine(post), QuestionSuffix) <==> post.questionLike
    ensures post.questionLike ==> Contains(UnansweredLine(post), "(question)")
  {
    var link := "- [" + post.title + "](" + post.permalink + ")";
    var line := UnansweredLine(post);
    if post.questionLike {
      assert line == link + QuestionSuffix;
      assert line == (link + " ") + "(question)" + "";
      ContainsMiddle(link + " ", "(question)", "");
    } else {
      assert line == link;
      var k := |post.permalink| - 10;
      assert line[|line| - 11] == post.permalink[k];
      assert post.permalink[k] in post.permalink;
      assert line[|line| - 11] != QuestionSuffix[0];
    }
  }

  lemma UnansweredLinesProperties(posts: seq<UnansweredSummary>)
    ensures var r := UnansweredLines(posts);
      && (posts != [] ==> forall i :: 0 <= i < |posts| ==> r[i] == UnansweredLine(posts[i]))
      && (forall i :: 0 <= i < |r| ==> IsItem(r[i]))
  {
  }

  /** `_format_unanswered`. */
  method FormatUnanswered(posts: seq<UnansweredSummary>) returns (lines: seq<string>)
    ensures lines == UnansweredLines(posts)
  {
    lines := [];
    if posts == [] {
      return ["- None found"];
    }
    for i := 0 to |posts|
      invariant |lines| == i
      invariant forall j :: 0 <= j < i ==> lines[j] == UnansweredLine(posts[j])
    {
      var post := posts[i];
      var marker := if post.questionLike then QuestionSuffix else "";
      lines := lines + ["- [" + post.title + "](" + post.permalink + ")" + marker];
    }
  }

  // ---------------------------------------------------------------------
  // `_format_history`

  function HistoryLine(e: HistoryEntry, fmt: Fmt): (r: string)
    ensures IsItem(r)
  {
    "- " + e.date + ": posts " + fmt.intText(e.totalPosts) + ", unanswered rate " + fmt.percentage(e.unansweredRate)
  }

  function SumRates(entries: seq<HistoryEntry>): real {
    if entries == [] then 0.0 else entries[0].unansweredRate + SumRates(entries[1..])
  }

  function MeanRate(entries: seq<HistoryEntry>): real
    requires entries != []
  {
    SumRates(entries) / (|entries| as real)
  }

  function AverageLine(recent: seq<HistoryEntry>, fmt: Fmt): string
    requires recent != []
  {
    "- Avg unanswered rate last " + fmt.intText(|recent|) + " runs: " + fmt.percentage(MeanRate(recent))
  }

  function HistoryLines(history: seq<HistoryEntry>, fmt: Fmt): (r: seq<string>)
    ensures history == [] ==> r == ["- No history yet (will populate after runs)"]
  {
    if history == [] then ["- No history yet (will populate after runs)"]
    else
      var recent := Take(history, HistoryShown);
      seq(|recent|, i requires 0 <= i < |recent| => HistoryLine(recent[i], fmt))
        + (if |recent| > 1 then [AverageLine(recent, fmt)] else [])
  }

  /** At most the first four entries, one line each, and an average line
      exactly when more than one entry is shown. */
  lemma HistoryLinesProperties(history: seq<HistoryEntry>, fmt: Fmt)
    ensures var r := HistoryLines(history, fmt);
      var shown := if |history| < 4 then |history| else 4;
      && (history != [] ==> |r| == shown + (if shown > 1 then 1 else 0))
      && (forall i :: 0 <= i < shown ==> r[i] == HistoryLine(history[i], fmt))
      && (shown > 1 ==> r[shown] == AverageLine(history[..shown], fmt))
      && (forall i :: 0 <= i < |r| ==> IsItem(r[i]))
  {
  }

  lemma {:induction false} SumRatesBounds(entries: seq<HistoryEntry>, lo: real, hi: real)
    requires forall e :: e in entries ==> lo <= e.unansweredRate <= hi
    ensures lo * (|entries| as real) <= SumRates(entries) <= hi * (|entries| as real)
  {
    if entries != [] {
      SumRatesBounds(entries[1..], lo, hi);
      var n := |entries[1..]| as real;
      var m := |entries| as real;
      assert entries[0] in entries;
      assert m == n + 1.0;
      assert lo * m == lo * n + lo && hi * m == hi * n + hi;
    }
  }

  /** The average shown lies between the lowest and the highest rate shown. */
  lemma MeanRateBetween(recent: seq<HistoryEntry>, lo: real, hi: real)
    requires recent != []
    requires forall e :: e in recent ==> lo <= e.unansweredRate <= hi
    ensures lo <= MeanRate(recent) <= hi
  {
    SumRatesBounds(recent, lo, hi);
    var n := |recent| as real;
    QuotientBounds(lo, hi, SumRates(recent), n);
  }

  lemma QuotientBounds(lo: real, hi: real, sum: real, n: real)
    requires n > 0.0 && lo * n <= sum <= hi * n
    ensures lo <= sum / n <= hi
  {
    var q := sum / n;
    assert sum == q * n;
    assert (q - lo) * n >= 0.0 && (hi - q) * n >= 0.0;
  }

  /** `_format_history`. */
  method FormatHistory(history: seq<HistoryEntry>, fmt: Fmt) returns (lines: seq<string>)
    ensures lines == HistoryLines(history, fmt)
  {
    if history == [] {
      return ["- No history yet (will populate after runs)"];
    }
    lines := [];
    var recent := Take(history, HistoryShown);
    for i := 0 to |recent|
      invariant |lines| == i
      invariant forall j :: 0 <= j < i ==> lines[j] == HistoryLine(recent[j], fmt)
    {
      var entry := recent[i];
      lines := lines + ["- " + entry.date + ": posts " + fmt.intText(entry.totalPosts)
                        + ", unanswered rate " + fmt.percentage(entry.unansweredRate)];
    }
    if |recent| > 1 {
      var avg := SumRates(recent) / (|recent| as real);
      lines := lines + ["- Avg unanswered rate last " + fmt.intText(|recent|) + " runs: " + fmt.percentage(avg)];
    }
  }

  // ---------------------------------------------------------------------
  // `build_markdown`

  /** `(include_sections or {...all True...}).get(key, True)`. */
  function Shown(given: Sections, key: string): (r: bool)
    ensures r <==> key !in given || given[key]
  {
    var sections := if given == map[] then AllSections else given;
    if key in sections then sections[key] else true
  }

  function PostLine(post: PostSummary, fmt: Fmt): string {
    "- [" + post.title + "](" + post.permalink + ") | score: " + fmt.intText(post.score)
      + " | comments: " + fmt.intText(post.comments)
  }

  /** The post lines, or the one sentinel line for no posts. */
  function PostLines(posts: seq<PostSummary>, empty: string, fmt: Fmt): (r: seq<string>)
    ensures posts == [] ==> r == [empty]
    ensures posts != [] ==> |r| == |posts|
  {
    if posts == [] then [empty]
    else seq(|posts|, i requires 0 <= i < |posts| => PostLine(posts[i], fmt))
  }

  const StatsHeader := "### Stats"
  const TrendsHeader := "### Trends vs previous week"
  const HistoryHeader := "### Recent history (last runs)"
  const TopHeader := "### Top posts this week"
  const RisingHeader := "### Rising posts (score velocity)"
  const UnansweredHeader := "### Unanswered recent posts"
  const AgingHeader := "### Aging unanswered (48-120h)"

  function Section(header: string, body: seq<string>): seq<string> {
    [header] + body
  }

  function StatsItems(m: MetricsSnapshot, fmt: Fmt): seq<string> {
    ["- Posts this week: " + fmt.intText(m.totalPosts),
     "- Unanswered rate: " + (if m.totalPosts != 0 then fmt.percentage(m.unansweredRate) else "n/a"),
     "- Median time to first comment: "
       + (if m.medianTtfMinutes.Some? then fmt.minutes(m.medianTtfMinutes.value) else "n/a"),
     "- Post type mix: " + FmtTopItems(m.postTypeMix, DefaultTopN, fmt.intText),
     "- Top flairs: " + FmtTopItems(m.flairDistribution, DefaultTopN, fmt.intText)]
  }

  function StatsLines(m: MetricsSnapshot, fmt: Fmt): seq<string> {
    Section(StatsHeader, StatsItems(m, fmt))
  }

  function TrendsLines(r: SubredditReport, fmt: Fmt): seq<string> {
    Section(TrendsHeader, TrendLines(r.trends, fmt) + [""]) + Section(HistoryHeader, HistoryLines(r.history, fmt))
  }

  function TopLines(r: SubredditReport, fmt: Fmt): seq<string> {
    Section(TopHeader, PostLines(r.topPosts, "- No data", fmt))
  }

  function RisingLines(r: SubredditReport, fmt: Fmt): seq<string> {
    Section(RisingHeader, PostLines(r.risingPosts, "- None detected", fmt))
  }

  function UnansweredSectionLines(r: SubredditReport): seq<string> {
    Section(UnansweredHeader, UnansweredLines(r.unanswered)) + Section(AgingHeader, UnansweredLines(r.agingUnanswered))
  }

  /** The lines for one community: its header, then each section it shows. */
  function ReportLines(name: string, r: SubredditReport, fmt: Fmt): seq<string> {
    var s := r.includeSections;
    ["\n## " + name]
      + (if Shown(s, "stats") then StatsLines(r.metrics, fmt) else [])
      + (if Shown(s, "trends") then TrendsLines(r, fmt) else [])
      + (if Shown(s, "top_posts") then TopLines(r, fmt) else [])
      + (if Shown(s, "top_posts") then RisingLines(r, fmt) else [])
      + (if Shown(s, "unanswered") then UnansweredSectionLines(r) else [])
  }

  function Preamble(today: string): seq<string> {
    ["# Weekly Community Health Summary", "_Generated on " + today + "_"]
  }

  function CommunitiesLines(names: seq<string>, reports: map<string, SubredditReport>, fmt: Fmt): seq<string>
    requires forall n :: n in names ==> n in reports
  {
    if names == [] then []
    else
      var last := names[|names| - 1];
      CommunitiesLines(names[..|names| - 1], reports, fmt) + ReportLines(last, reports[last], fmt)
  }

  function MarkdownLines(names: seq<string>, reports: map<string, SubredditReport>, fmt: Fmt, today: string): seq<string>
    requires forall n :: n in names ==> n in reports
  {
    Preamble(today) + CommunitiesLines(names, reports, fmt)
  }

  lemma CommunitiesLinesSnoc(names: seq<string>, i: nat, reports: map<string, SubredditReport>, fmt: Fmt)
    requires i < |names|
    requires forall n :: n in names ==> n in reports
    ensures CommunitiesLines(names[..i + 1], reports, fmt)
         == CommunitiesLines(names[..i], reports, fmt) + ReportLines(names[i], reports[names[i]], fmt)
  {
    assert names[..i + 1][..i] == names[..i];
  }

  /** The section headers a community's lines carry, for its flags. */
  function ExpectedHeaders(s: Sections): seq<string> {
    (if Shown(s, "stats") then [StatsHeader] else [])
      + (if Shown(s, "trends") then [TrendsHeader, HistoryHeader] else [])
      + (if Shown(s, "top_posts") then [TopHeader] else [])
      + (if Shown(s, "top_posts") then [RisingHeader] else [])
      + (if Shown(s, "unanswered") then [UnansweredHeader, AgingHeader] else [])
  }

  lemma SectionHeaders(header: string, body: seq<string>)
    requires IsHeader(header) && !IsCommunityHeader(header)
    requires forall i :: 0 <= i < |body| ==> IsItem(body[i]) || body[i] == ""
    ensures Headers(Section(header, body)) == [header]
    ensures CommunityHeaders(Section(header, body)) == []
  {
    HeadersAppend([header], body);
    ItemsHaveNoHeaders(body);
  }

  lemma HeaderConstants()
    ensures IsHeader(StatsHeader) && !IsCommunityHeader(StatsHeader)
    ensures IsHeader(TrendsHeader) && !IsCommunityHeader(TrendsHeader)
    ensures IsHeader(HistoryHeader) && !IsCommunityHeader(HistoryHeader)
    ensures IsHeader(TopHeader) && !IsCommunityHeader(TopHeader)
    ensures IsHeader(RisingHeader) && !IsCommunityHeader(RisingHeader)
    ensures IsHeader(UnansweredHeader) && !IsCommunityHeader(UnansweredHeader)
    ensures IsHeader(AgingHeader) && !IsCommunityHeader(AgingHeader)
  {
  }

  lemma PostLinesAreItems(posts: seq<PostSummary>, empty: string, fmt: Fmt)
    requires IsItem(empty)
    ensures forall i :: 0 <= i < |PostLines(posts, empty, fmt)| ==> IsItem(PostLines(posts, empty, fmt)[i])
  {
  }

  lemma StatsItemsAreItems(m: MetricsSnapshot, fmt: Fmt)
    ensures forall i :: 0 <= i < |StatsItems(m, fmt)| ==> IsItem(StatsItems(m, fmt)[i])
  {
  }

  lemma TwoSections(h1: string, b1: seq<string>, h2: string, b2: seq<string>)
    requires Headers(Section(h1, b1)) == [h1] && CommunityHeaders(Section(h1, b1)) == []
    requires Headers(Section(h2, b2)) == [h2] && CommunityHeaders(Section(h2, b2)) == []
    ensures Headers(Section(h1, b1) + Section(h2, b2)) == [h1, h2]
    ensures CommunityHeaders(Section(h1, b1) + Section(h2, b2)) == []
  {
    HeadersAppend(Section(h1, b1), Section(h2, b2));
  }

  lemma StatsSection(m: MetricsSnapshot, fmt: Fmt)
    ensures Headers(StatsLines(m, fmt)) == [StatsHeader] && CommunityHeaders(StatsLines(m, fmt)) == []
  {
    HeaderConstants();
    StatsItemsAreItems(m, fmt);
    SectionHeaders(StatsHeader, StatsItems(m, fmt));
  }

  lemma TrendsSection(r: SubredditReport, fmt: Fmt)
    ensures Headers(TrendsLines(r, fmt)) == [TrendsHeader, HistoryHeader]
    ensures CommunityHeaders(TrendsLines(r, fmt)) == []
  {
    HeaderConstants();
    TrendLinesProperties(r.trends, fmt);
    HistoryLinesProperties(r.history, fmt);
    SectionHeaders(TrendsHeader, TrendLines(r.trends, fmt) + [""]);
    SectionHeaders(HistoryHeader, HistoryLines(r.history, fmt));
    TwoSections(TrendsHeader, TrendLines(r.trends, fmt) + [""], HistoryHeader, HistoryLines(r.history, fmt));
  }

  lemma PostsSection(header: string, empty: string, posts: seq<PostSummary>, fmt: Fmt)
    requires IsHeader(header) && !IsCommunityHeader(header) && IsItem(empty)
    ensures Headers(Section(header, PostLines(posts, empty, fmt))) == [header]
    ensures CommunityHeaders(Section(header, PostLines(posts, empty, fmt))) == []
  {
    PostLinesAreItems(posts, empty, fmt);
    SectionHeaders(header, PostLines(posts, empty, fmt));
  }

  lemma UnansweredSection(r: SubredditReport)
    ensures Headers(UnansweredSectionLines(r)) == [UnansweredHeader, AgingHeader]
    ensures CommunityHeaders(UnansweredSectionLines(r)) == []
  {
    HeaderConstants();
    UnansweredLinesProperties(r.unanswered);
    UnansweredLinesProperties(r.agingUnanswered);
    SectionHeaders(UnansweredHeader, UnansweredLines(r.unanswered));
    SectionHeaders(AgingHeader, UnansweredLines(r.agingUnanswered));
    TwoSections(UnansweredHeader, UnansweredLines(r.unanswered), AgingHeader, UnansweredLines(r.agingUnanswered));
  }

  lemma CommunityLine(name: string)
    ensures Headers(["\n## " + name]) == [] && CommunityHeaders(["\n## " + name]) == ["\n## " + name]
  {
    var line := "\n## " + name;
    assert IsCommunityHeader(line) && !IsHeader(line);
    assert [line][1..] == [];
  }

  lemma JoinHeaders(p0: seq<string>, p1: seq<string>, p2: seq<string>, p3: seq<string>, p4: seq<string>, p5: seq<string>)
    requires Headers(p0) == []
    ensures Headers(p0 + p1 + p2 + p3 + p4 + p5) == Headers(p1) + Headers(p2) + Headers(p3) + Headers(p4) + Headers(p5)
  {
    var a1 := p0 + p1;
    var a2 := a1 + p2;
    var a3 := a2 + p3;
    var a4 := a3 + p4;
    SectionHeadersAppend(p0, p1);
    SectionHeadersAppend(a1, p2);
    SectionHeadersAppend(a2, p3);
    SectionHeadersAppend(a3, p4);
    SectionHeadersAppend(a4, p5);
    assert Headers(a1) == Headers(p1);
  }

  lemma JoinCommunityHeaders(p0: seq<string>, p1: seq<string>, p2: seq<string>, p3: seq<string>, p4: seq<string>, p5: seq<string>)
    requires CommunityHeaders(p1) == [] && CommunityHeaders(p2) == [] && CommunityHeaders(p3) == []
    requires CommunityHeaders(p4) == [] && CommunityHeaders(p5) == []
    ensures CommunityHeaders(p0 + p1 + p2 + p3 + p4 + p5) == CommunityHeaders(p0)
  {
    var a1 := p0 + p1;
    var a2 := a1 + p2;
    var a3 := a2 + p3;
    var a4 := a3 + p4;
    CommunityHeadersAppend(p0, p1);
    CommunityHeadersAppend(a1, p2);
    CommunityHeadersAppend(a2, p3);
    CommunityHeadersAppend(a3, p4);
    CommunityHeadersAppend(a4, p5);
  }

  /** Section gating: a community's lines hold exactly the section headers
      its flags allow, in the fixed order, and one community header, its own;
      a flag that is absent (or an empty flag map) shows the section, and
      `top_posts` governs both the top and the rising lists. */
  lemma ReportSections(name: string, r: SubredditReport, fmt: Fmt)
    ensures Headers(ReportLines(name, r, fmt)) == ExpectedHeaders(r.includeSections)
    ensures CommunityHeaders(ReportLines(name, r, fmt)) == ["\n## " + name]
  {
    var s := r.includeSections;
    var p0 := ["\n## " + name];
    var p1 := if Shown(s, "stats") then StatsLines(r.metrics, fmt) else [];
    var p2 := if Shown(s, "trends") then TrendsLines(r, fmt) else [];
    var p3 := if Shown(s, "top_posts") then TopLines(r, fmt) else [];
    var p4 := if Shown(s, "top_posts") then RisingLines(r, fmt) else [];
    var p5 := if Shown(s, "unanswered") then UnansweredSectionLines(r) else [];
    assert ReportLines(name, r, fmt) == p0 + p1 + p2 + p3 + p4 + p5;
    CommunityLine(name);
    SectionsOfReport(r, fmt);
    SectionsHaveNoCommunityHeaders(r, fmt);
    JoinHeaders(p0, p1, p2, p3, p4, p5);
    JoinCommunityHeaders(p0, p1, p2, p3, p4, p5);
  }

  lemma SectionsOfReport(r: SubredditReport, fmt: Fmt)
    ensures var s := r.includeSections;
      Headers(if Shown(s, "stats") then StatsLines(r.metrics, fmt) else [])
        + Headers(if Shown(s, "trends") then TrendsLines(r, fmt) else [])
        + Headers(if Shown(s, "top_posts") then TopLines(r, fmt) else [])
        + Headers(if Shown(s, "top_posts") then RisingLines(r, fmt) else [])
        + Headers(if Shown(s, "unanswered") then UnansweredSectionLines(r) else [])
        == ExpectedHeaders(s)
  {
    StatsSection(r.metrics, fmt);
    TrendsSection(r, fmt);
    HeaderConstants();
    PostsSection(TopHeader, "- No data", r.topPosts, fmt);
    PostsSection(RisingHeader, "- None detected", r.risingPosts, fmt);
    UnansweredSection(r);
  }

  lemma SectionsHaveNoCommunityHeaders(r: SubredditReport, fmt: Fmt)
    ensures var s := r.includeSections;
      && CommunityHeaders(if Shown(s, "stats") then StatsLines(r.metrics, fmt) else []) == []
      && CommunityHeaders(if Shown(s, "trends") then TrendsLines(r, fmt) else []) == []
      && CommunityHeaders(if Shown(s, "top_posts") then TopLines(r, fmt) else []) == []
      && CommunityHeaders(if Shown(s, "top_posts") then RisingLines(r, fmt) else []) == []
      && CommunityHeaders(if Shown(s, "unanswered") then UnansweredSectionLines(r) else []) == []
  {
    HeaderConstants();
    StatsSection(r.metrics, fmt);
    TrendsSection(r, fmt);
    PostsSection(TopHeader, "- No data", r.topPosts, fmt);
    PostsSection(RisingHeader, "- None detected", r.risingPosts, fmt);
    UnansweredSection(r);
  }

  /** Communities appear in the order given, each under one header. */
  lemma {:induction false} CommunitiesInOrder(names: seq<string>, reports: map<string, SubredditReport>, fmt: Fmt)
    requires forall n :: n in names ==> n in reports
    ensures |CommunityHeaders(CommunitiesLines(names, reports, fmt))| == |names|
    ensures forall i :: 0 <= i < |names| ==> CommunityHeaders(CommunitiesLines(names, reports, fmt))[i] == "\n## " + names[i]
  {
    if names != [] {
      var init := names[..|names| - 1];
      var last := names[|names| - 1];
      CommunitiesInOrder(init, reports, fmt);
      ReportSections(last, reports[last], fmt);
      HeadersAppend(CommunitiesLines(init, reports, fmt), ReportLines(last, reports[last], fmt));
    }
  }

  lemma MarkdownCommunities(names: seq<string>, reports: map<string, SubredditReport>, fmt: Fmt, today: string)
    requires forall n :: n in names ==> n in reports
    ensures var heads := CommunityHeaders(MarkdownLines(names, reports, fmt, today));
      |heads| == |names| && forall i :: 0 <= i < |names| ==> heads[i] == "\n## " + names[i]
  {
    var pre := Preamble(today);
    var body := CommunitiesLines(names, reports, fmt);
    PreambleHasNoCommunityHeaders(today);
    HeadersAppend(pre, body);
    assert CommunityHeaders(MarkdownLines(names, reports, fmt, today)) == CommunityHeaders(body);
    CommunitiesInOrder(names, reports, fmt);
  }

  lemma PreambleHasNoCommunityHeaders(today: string)
    ensures CommunityHeaders(Preamble(today)) == []
  {
    var pre := Preamble(today);
    assert pre == [pre[0]] + [pre[1]];
    assert !IsCommunityHeader(pre[0]) && !IsCommunityHeader(pre[1]);
    HeadersAppend([pre[0]], [pre[1]]);
  }

  /** A post-list section, as the loops in `build_markdown` write it. */
  method RenderPosts(header: string, empty: string, posts: seq<PostSummary>, fmt: Fmt) returns (lines: seq<string>)
    ensures lines == Section(header, PostLines(posts, empty, fmt))
  {
    lines := [header];
    if posts == [] {
      lines := lines + [empty];
      return;
    }
    for i := 0 to |posts|
      invariant |lines| == i + 1 && lines[0] == header
      invariant forall j :: 0 <= j < i ==> lines[j + 1] == PostLine(posts[j], fmt)
    {
      var post := posts[i];
      lines := lines + ["- [" + post.title + "](" + post.permalink + ") | score: " + fmt.intText(post.score)
                        + " | comments: " + fmt.intText(post.comments)];
    }
  }

  method RenderStats(metrics: MetricsSnapshot, fmt: Fmt) returns (lines: seq<string>)
    ensures lines == StatsLines(metrics, fmt)
  {
    ghost var items := StatsItems(metrics, fmt);
    lines := [StatsHeader];
    lines := lines + ["- Posts this week: " + fmt.intText(metrics.totalPosts)];
    assert lines == [StatsHeader] + items[..1];
    lines := lines + ["- Unanswered rate: " + (if metrics.totalPosts != 0 then fmt.percentage(metrics.unansweredRate) else "n/a")];
    assert lines == [StatsHeader] + items[..2];
    var ttf := if metrics.medianTtfMinutes.Some? then fmt.minutes(metrics.medianTtfMinutes.value) else "n/a";
    lines := lines + ["- Median time to first comment: " + ttf];
    assert lines == [StatsHeader] + items[..3];
    lines := lines + ["- Post type mix: " + FmtTopItems(metrics.postTypeMix, DefaultTopN, fmt.intText)];
    assert lines == [StatsHeader] + items[..4];
    lines := lines + ["- Top flairs: " + FmtTopItems(metrics.flairDistribution, DefaultTopN, fmt.intText)];
    assert items[..5] == items;
  }

  method RenderTrends(report: SubredditReport, fmt: Fmt) returns (lines: seq<string>)
    ensures lines == TrendsLines(report, fmt)
  {
    lines := [TrendsHeader];
    var trendLines := FormatTrends(report.trends, fmt);
    lines := lines + trendLines;
    lines := lines + [""];
    lines := lines + [HistoryHeader];
    var historyLines := FormatHistory(report.history, fmt);
    lines := lines + historyLines;
  }

  method RenderUnanswered(report: SubredditReport) returns (lines: seq<string>)
    ensures lines == UnansweredSectionLines(report)
  {
    lines := [UnansweredHeader];
    var recentLines := FormatUnanswered(report.unanswered);
    lines := lines + recentLines;
    lines := lines + [AgingHeader];
    var agingLines := FormatUnanswered(report.agingUnanswered);
    lines := lines + agingLines;
  }

  /** `include_sections or {...}` and its four `.get(key, True)` look-ups. */
  method SectionFlags(given: Sections) returns (showStats: bool, showTrends: bool, showTop: bool, showUnanswered: bool)
    ensures showStats == Shown(given, "stats") && showTrends == Shown(given, "trends")
    ensures showTop == Shown(given, "top_posts") && showUnanswered == Shown(given, "unanswered")
  {
    var sections := given;
    if sections == map[] {
      sections := AllSections;
    }
    showStats := "stats" !in sections || sections["stats"];
    showTrends := "trends" !in sections || sections["trends"];
    showTop := "top_posts" !in sections || sections["top_posts"];
    showUnanswered := "unanswered" !in sections || sections["unanswered"];
  }

  /** The body of `build_markdown`'s loop for one community. */
  method RenderReport(name: string, report: SubredditReport, fmt: Fmt) returns (lines: seq<string>)
    ensures lines == ReportLines(name, report, fmt)
  {
    var showStats, showTrends, showTop, showUnanswered := SectionFlags(report.includeSections);
    ghost var p0 := ["\n## " + name];
    ghost var p1 := if showStats then StatsLines(report.metrics, fmt) else [];
    ghost var p2 := if showTrends then TrendsLines(report, fmt) else [];
    ghost var p3 := if showTop then TopLines(report, fmt) else [];
    ghost var p4 := if showTop then RisingLines(report, fmt) else [];
    ghost var p5 := if showUnanswered then UnansweredSectionLines(report) else [];
    lines := ["\n## " + name];
    if showStats {
      var part := RenderStats(report.metrics, fmt);
      lines := lines + part;
    }
    assert lines == p0 + p1;
    if showTrends {
      var part := RenderTrends(report, fmt);
      lines := lines + part;
    }
    assert lines == p0 + p1 + p2;
    if showTop {
      var part := RenderPosts(TopHeader, "- No data", report.topPosts, fmt);
      lines := lines + part;
    }
    assert lines == p0 + p1 + p2 + p3;
    if showTop {
      var part := RenderPosts(RisingHeader, "- None detected", report.risingPosts, fmt);
      lines := lines + part;
    }
    assert lines == p0 + p1 + p2 + p3 + p4;
    if showUnanswered {
      var part := RenderUnanswered(report);
      lines := lines + part;
    }
    assert lines == p0 + p1 + p2 + p3 + p4 + p5;
  }

  /** One turn of `build_markdown`'s loop: `reports[name]`, then its lines. */
  method RenderCommunity(names: seq<string>, i: nat, reports: map<string, SubredditReport>, fmt: Fmt)
    returns (section: seq<string>)
    requires i < |names|
    requires forall n :: n in names ==> n in reports
    ensures CommunitiesLines(names[..i + 1], reports, fmt) == CommunitiesLines(names[..i], reports, fmt) + section
  {
    CommunitiesLinesSnoc(names, i, reports, fmt);
    var report := reports[names[i]];
    section := RenderReport(names[i], report, fmt);
  }

  /** `build_markdown`: every name must have a report (a missing one raises
      `KeyError`); the result is the lines joined with "\n". */
  method BuildMarkdown(names: seq<string>, reports: map<string, SubredditReport>, fmt: Fmt, today: string)
    returns (markdown: string)
    requires forall n :: n in names ==> n in reports
    ensures markdown == Join(MarkdownLines(names, reports, fmt, today), "\n")
  {
    var lines := ["# Weekly Community Health Summary"];
    lines := lines + ["_Generated on " + today + "_"];
    for i := 0 to |names|
      invariant lines == Preamble(today) + CommunitiesLines(names[..i], reports, fmt)
    {
      var section := RenderCommunity(names, i, reports, fmt);
      lines := lines + section;
    }
    assert names[..|names|] == names;
    markdown := Join(lines, "\n");
  }
}
