/** `services/mock_data.py`: a fixed report used when the API is not
    available.  Today's date is a parameter: `dateBefore(d)` is the ISO
    date `d` days before it. */
module MockData {
  import opened Wrappers
  import opened Seqs
  import opened Strings
  import opened Models
  import opened Analytics

  function Min(a: int, b: int): int { if a < b then a else b }
  function Max(a: int, b: int): int { if a < b then b else a }

  function MockTop(name: string, i: nat): PostSummary {
    PostSummary("[Mock] Helpful thread #" + NatToString(i) + " in " + name,
                150 - i * 10, 40 - i * 5,
                "https://reddit.com/r/" + name + "/mock_top_" + NatToString(i))
  }

  function MockRising(name: string, i: nat): PostSummary {
    PostSummary("[Mock] Rising post #" + NatToString(i) + " in " + name,
                60 + i * 5, 8 + i * 3,
                "https://reddit.com/r/" + name + "/mock_rising_" + NatToString(i))
  }

  function MockUnanswered(name: string, i: nat): UnansweredSummary {
    UnansweredSummary("[Mock] Unanswered question #" + NatToString(i) + " in " + name + "?",
                      "https://reddit.com/r/" + name + "/mock_unanswered_" + NatToString(i),
                      true)
  }

  function MockHistory(name: string, i: nat, dateBefore: int -> string): HistoryEntry {
    HistoryEntry(dateBefore(7 * i), name, 40 + i, 5 + i, 0.12 + (i as real) * 0.01, Some((15 - i) as real))
  }

  /** `[make(i) for i in range(1, n + 1)]`. */
  function Numbered<T>(n: int, make: nat -> T): (r: seq<T>)
    ensures |r| == Cap(n)
    ensures forall i :: 0 <= i < |r| ==> r[i] == make(i + 1)
  {
    seq(Cap(n), i requires 0 <= i < Cap(n) => make(i + 1))
  }

  const MockTotalPosts: int := 42

  /** `generate_mock_report`. */
  function GenerateMockReport(name: string, topLimit: int, unansweredLimit: int,
                              includeSections: Option<Sections>, dateBefore: int -> string): (r: SubredditReport)
    ensures r.metrics.totalPosts == MockTotalPosts && r.metrics.unanswered == |r.unanswered|
    ensures |r.history| == 3
  {
    var unanswered := Numbered(unansweredLimit, i => MockUnanswered(name, i));
    var rate := (|unanswered| as real) / (MockTotalPosts as real);
    var metrics := MetricsSnapshot(
      MockTotalPosts, |unanswered|, rate, Some(12.5),
      [("self", 30), ("link", 8), ("video", 4)],
      [("Solved", 10), ("Unresolved", 5), ("None", 27)]);
    SubredditReport(
      Numbered(topLimit, i => MockTop(name, i)),
      Numbered(Min(4, topLimit), i => MockRising(name, i)),
      unanswered,
      PyPrefix(unanswered, Max(1, Min(3, unansweredLimit))),
      metrics,
      [Trend(PostsMetric, 42.0, 38.0, 4.0), Trend(RateMetric, rate, 0.2, 0.0)],
      seq(3, i requires 0 <= i < 3 => MockHistory(name, i, dateBefore)),
      SectionsOrDefault(includeSections))
  }

  /** The list sizes follow the limits (an empty list for a negative one),
      the n-th top post scores 150 - 10n, and the aging list is a short
      prefix of the unanswered one. */
  lemma MockListsFollowLimits(name: string, topLimit: int, unansweredLimit: int,
                              includeSections: Option<Sections>, dateBefore: int -> string)
    ensures var r := GenerateMockReport(name, topLimit, unansweredLimit, includeSections, dateBefore);
      && |r.topPosts| == Cap(topLimit)
      && (forall i :: 0 <= i < |r.topPosts| ==> r.topPosts[i].score == 150 - 10 * (i + 1))
      && |r.risingPosts| == Cap(Min(4, topLimit))
      && |r.unanswered| == Cap(unansweredLimit)
      && r.agingUnanswered == r.unanswered[..Min(|r.unanswered|, Max(1, Min(3, unansweredLimit)))]
  {
  }

  /** Every mock unanswered post is flagged question-like, and its title
      does look like a question. */
  lemma MockUnansweredAreQuestions(name: string, topLimit: int, unansweredLimit: int,
                                   includeSections: Option<Sections>, dateBefore: int -> string)
    ensures var r := GenerateMockReport(name, topLimit, unansweredLimit, includeSections, dateBefore);
      forall i :: 0 <= i < |r.unanswered| ==> r.unanswered[i].questionLike && LooksLikeQuestion(r.unanswered[i].title)
  {
    var r := GenerateMockReport(name, topLimit, unansweredLimit, includeSections, dateBefore);
    forall i | 0 <= i < |r.unanswered|
      ensures r.unanswered[i].questionLike && LooksLikeQuestion(r.unanswered[i].title)
    {
      var t := r.unanswered[i].title;
      assert t[|t| - 1] == '?';
    }
  }

  /** The metrics are fixed at 42 posts, the unanswered count is the list's
      length and the rate their ratio; history has three entries of the
      community, a week apart; no flags given shows every section. */
  lemma MockMetricsAndHistory(name: string, topLimit: int, unansweredLimit: int,
                              includeSections: Option<Sections>, dateBefore: int -> string)
    ensures var r := GenerateMockReport(name, topLimit, unansweredLimit, includeSections, dateBefore);
      && r.metrics.totalPosts == 42
      && r.metrics.unanswered == |r.unanswered| <= Cap(unansweredLimit)
      && r.metrics.unansweredRate == (|r.unanswered| as real) / 42.0
      && |r.history| == 3
      && (forall i :: 0 <= i < 3 ==> r.history[i].subreddit == name && r.history[i].date == dateBefore(7 * i))
      && (includeSections.None? ==> r.includeSections == AllSections && r.includeSections["stats"])
  {
  }

  /** Unlike the live report, the mock unanswered-rate trend does not carry
      `current - previous` as its delta: that delta is always 0.0 while the
      two rates never agree (0.2 would need 8.4 unanswered posts). */
  lemma MockRateTrendDeltaFixed(name: string, topLimit: int, unansweredLimit: int,
                                includeSections: Option<Sections>, dateBefore: int -> string)
    ensures var r := GenerateMockReport(name, topLimit, unansweredLimit, includeSections, dateBefore);
      && |r.trends| == 2
      && r.trends[0].delta == r.trends[0].current - r.trends[0].previous
      && r.trends[1].delta == 0.0
      && r.trends[1].delta != r.trends[1].current - r.trends[1].previous
  {
  }
}
