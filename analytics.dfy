/** The weekly aggregation engine of `services/analytics.py`.

    The two listings the engine reads (`subreddit.top(time_filter="week")`
    and `subreddit.new()`) are input sequences, newest first for the second;
    a listing's `limit` keeps a prefix of it.  The comment fetch behind the
    time-to-first-comment sample is the oracle `lookup`: `None` when the
    fetch fails, otherwise the creation times of the post's comments.
    The wall clock is the parameter `now` (epoch seconds), and all hour
    tests are done in whole seconds. */
module Analytics {
  import opened Wrappers
  import opened Seqs
  import opened Strings
  import opened Sorting
  import opened Models

  /** A submission as the engine reads it. */
  datatype Post = Post(
    title: string,
    score: int,
    numComments: int,
    createdUtc: int,
    permalink: string,
    flair: Option<string>,
    poll: bool,
    gallery: bool,
    video: bool,
    isSelf: bool)

  type CommentLookup = Post -> Option<seq<int>>

  /** Seven days in seconds. */
  const Week: int := 604800
  /** At most this many time-to-first-comment fetches per run. */
  const TtfCap: nat := 30

  // ---------------------------------------------------------------------
  // Post type

  const PostTypes: seq<string> := ["poll", "gallery", "video", "self", "link"]

  /** First-match classification: poll, then gallery, video, self text, link. */
  function DetectPostType(p: Post): (r: string)
    ensures r in PostTypes
  {
    if p.poll then "poll"
    else if p.gallery then "gallery"
    else if p.video then "video"
    else if p.isSelf then "self"
    else "link"
  }

  /** The label is one of the five, and each label is given exactly when its
      flag is the first one set. */
  lemma DetectPostTypeCases(p: Post)
    ensures DetectPostType(p) in PostTypes
    ensures DetectPostType(p) == "poll" <==> p.poll
    ensures DetectPostType(p) == "gallery" <==> !p.poll && p.gallery
    ensures DetectPostType(p) == "video" <==> !p.poll && !p.gallery && p.video
    ensures DetectPostType(p) == "self" <==> !p.poll && !p.gallery && !p.video && p.isSelf
    ensures DetectPostType(p) == "link" <==> !p.poll && !p.gallery && !p.video && !p.isSelf
  {
  }

  /** Reference definition: the label of the first set flag in precedence order. */
  function FirstSet(flags: seq<(bool, string)>, fallback: string): string {
    if flags == [] then fallback
    else if flags[0].0 then flags[0].1
    else FirstSet(flags[1..], fallback)
  }

  lemma DetectPostTypeIsFirstMatch(p: Post)
    ensures DetectPostType(p)
         == FirstSet([(p.poll, "poll"), (p.gallery, "gallery"), (p.video, "video"), (p.isSelf, "self")], "link")
  {
    var flags := [(p.poll, "poll"), (p.gallery, "gallery"), (p.video, "video"), (p.isSelf, "self")];
    assert flags[1..][1..][1..][1..] == [];
    assert FirstSet(flags[1..][1..][1..], "link") == if p.isSelf then "self" else "link";
    assert FirstSet(flags[1..][1..], "link") == if p.video then "video" else FirstSet(flags[1..][1..][1..], "link");
  }

  // ---------------------------------------------------------------------
  // Time to first comment

  function MinOf(s: seq<int>): (m: int)
    requires s != []
    ensures m in s
    ensures forall x :: x in s ==> m <= x
  {
    if |s| == 1 then s[0]
    else
      var t := MinOf(s[1..]);
      assert forall x :: x in s ==> x == s[0] || x in s[1..];
      if s[0] <= t then s[0] else t
  }

  /** Minutes from the post to its earliest comment, clamped at zero; absent
      when the comment fetch failed or there are no comments. */
  function TimeToFirstCommentMinutes(createdUtc: int, comments: Option<seq<int>>): (r: Option<real>)
    ensures r.None? <==> comments.None? || comments.value == []
    ensures r.Some? ==> r.value >= 0.0
  {
    match comments
    case None => None
    case Some(ts) =>
      if ts == [] then None
      else
        var first := MinOf(ts);
        var delta := first - createdUtc;
        Some((if delta < 0 then 0 else delta) as real / 60.0)
  }

  /** Absent exactly when the fetch failed or found no comments; otherwise
      the non-negative delay of the earliest comment (clamped at zero), in
      minutes. */
  lemma TimeToFirstCommentMeaning(createdUtc: int, comments: Option<seq<int>>)
    ensures var r := TimeToFirstCommentMinutes(createdUtc, comments);
      && (comments.None? || comments.value == [] <==> r.None?)
      && (r.Some? ==> r.value >= 0.0)
      && (r.Some? ==> forall c :: c in comments.value ==> r.value * 60.0 <= (if c < createdUtc then 0 else c - createdUtc) as real)
      && (r.Some? ==> exists c :: c in comments.value && r.value * 60.0 == (if c < createdUtc then 0 else c - createdUtc) as real)
  {
  }

  // ---------------------------------------------------------------------
  // Question-likeness

  const Interrogatives: seq<string> :=
    ["who", "what", "when", "where", "why", "how", "does", "is", "are", "can", "should"]

  function StartsWithAny(s: string, prefixes: seq<string>): (r: bool)
    ensures r <==> exists w :: w in prefixes && StartsWith(s, w)
  {
    if prefixes == [] then false
    else StartsWith(s, prefixes[0]) || StartsWithAny(s, prefixes[1..])
  }

  /** A `?` anywhere, or a lower-cased title that starts with an interrogative word
      (a raw prefix test: "issue" starts with "is"). */
  function LooksLikeQuestion(title: string): (r: bool)
    ensures '?' in title ==> r
  {
    '?' in title || StartsWithAny(Lower(title), Interrogatives)
  }

  lemma LooksLikeQuestionIff(title: string)
    ensures LooksLikeQuestion(title) <==> '?' in title || exists w :: w in Interrogatives && StartsWith(Lower(title), w)
  {
  }

  lemma QuestionByPrefix(t: string)
    requires t == "How do I fix this"
    ensures LooksLikeQuestion(t)
  {
    var l := Lower(t);
    assert l[0] == 'h' && l[1] == 'o' && l[2] == 'w';
    assert StartsWith(l, "how");
    assert "how" in Interrogatives;
  }

  /** The prefix test is raw: "Issue..." starts with "is". */
  lemma QuestionByRawPrefix(t: string)
    requires t == "Issue with the installer"
    ensures LooksLikeQuestion(t)
  {
    var l := Lower(t);
    assert l[0] == 'i' && l[1] == 's';
    assert StartsWith(l, "is");
    assert "is" in Interrogatives;
  }

  lemma QuestionByMark(t: string)
    requires t == "Is this normal?"
    ensures LooksLikeQuestion(t)
  {
    assert t[14] == '?';
  }

  /** Without a `?`, a title whose first letter begins no interrogative word is not a question. */
  lemma NotAQuestionWithoutMarkOrPrefix(title: string)
    requires |title| > 0 && LowerChar(title[0]) !in "wdhiacs"
    requires '?' !in title
    ensures !LooksLikeQuestion(title)
  {
    var l := Lower(title);
    forall w | w in Interrogatives ensures !StartsWith(l, w) {
      assert w[0] in "wdhiacs";
    }
  }

  lemma NotAQuestion(t: string)
    requires t == "Broken install"
    ensures !LooksLikeQuestion(t)
  {
    assert '?' !in t;
    NotAQuestionWithoutMarkOrPrefix(t);
  }

  // ---------------------------------------------------------------------
  // Windows and per-post tests

  function Age(now: int, p: Post): int { now - p.createdUtc }

  /** Created at or after `now - 7 days` (posts stamped in the future included). */
  predicate InCurrentWeek(now: int, p: Post) { p.createdUtc >= now - Week }

  predicate InPreviousWeek(now: int, p: Post) { now - 2 * Week <= p.createdUtc < now - Week }

  /** Aged between 48 and 120 hours inclusive (172800 and 432000 seconds). */
  predicate InAgingWindow(now: int, p: Post) { 172800 <= Age(now, p) <= 432000 }

  /** Fresh (0h < age <= 48h) with a score of at least 5 per hour of age:
      `score / (age / 3600) >= 5`, multiplied out. */
  predicate IsRising(now: int, p: Post) {
    0 < Age(now, p) <= 172800 && p.score * 3600 >= 5 * Age(now, p)
  }

  datatype Criterion = CurrentWeek | PreviousWeek | ZeroCurrent | ZeroPrevious | Rising | Aging

  predicate Meets(now: int, c: Criterion, p: Post) {
    match c
    case CurrentWeek => InCurrentWeek(now, p)
    case PreviousWeek => !InCurrentWeek(now, p) && InPreviousWeek(now, p)
    case ZeroCurrent => InCurrentWeek(now, p) && p.numComments == 0
    case ZeroPrevious => !InCurrentWeek(now, p) && InPreviousWeek(now, p) && p.numComments == 0
    case Rising => InCurrentWeek(now, p) && IsRising(now, p)
    case Aging => InAgingWindow(now, p)
  }

  /** The posts of `s` meeting criterion `c`, in feed order. */
  function Select(now: int, c: Criterion, s: seq<Post>): (r: seq<Post>)
    ensures |r| <= |s|
  {
    if s == [] then []
    else Select(now, c, s[..|s| - 1]) + (if Meets(now, c, s[|s| - 1]) then [s[|s| - 1]] else [])
  }

  lemma SelectSnoc(now: int, c: Criterion, s: seq<Post>, p: Post)
    ensures Meets(now, c, p) ==> Select(now, c, s + [p]) == Select(now, c, s) + [p]
    ensures !Meets(now, c, p) ==> Select(now, c, s + [p]) == Select(now, c, s)
  {
    assert (s + [p])[..|s|] == s;
  }

  lemma {:induction false} SelectSound(now: int, c: Criterion, s: seq<Post>)
    ensures forall p :: p in Select(now, c, s) ==> p in s && Meets(now, c, p)
  {
    if s != [] {
      SelectSound(now, c, s[..|s| - 1]);
    }
  }

  /** Selecting with a narrower criterion never yields more posts. */
  lemma {:induction false} SelectNarrower(now: int, c: Criterion, d: Criterion, s: seq<Post>)
    requires forall p :: Meets(now, c, p) ==> Meets(now, d, p)
    ensures |Select(now, c, s)| <= |Select(now, d, s)|
  {
    if s != [] {
      SelectNarrower(now, c, d, s[..|s| - 1]);
    }
  }

  /** The posts that reach the latency branch: current-week posts that are
      not taken into the unanswered list, i.e. either answered, or
      unanswered after `cap` unanswered posts were already listed. */
  function LatencyCandidates(now: int, cap: nat, s: seq<Post>): seq<Post>
  {
    if s == [] then []
    else
      var init, p := s[..|s| - 1], s[|s| - 1];
      LatencyCandidates(now, cap, init)
        + (if InCurrentWeek(now, p) && !(p.numComments == 0 && |Select(now, ZeroCurrent, init)| < cap)
           then [p] else [])
  }

  /** The samples the lookups of `posts` yield, failed lookups dropped. */
  function Samples(lookup: CommentLookup, posts: seq<Post>): (r: seq<real>)
    ensures |r| <= |posts|
  {
    if posts == [] then []
    else
      var p := posts[|posts| - 1];
      var t := TimeToFirstCommentMinutes(p.createdUtc, lookup(p));
      Samples(lookup, posts[..|posts| - 1]) + (if t.Some? then [t.value] else [])
  }

  lemma {:induction false} SamplesNonNegative(lookup: CommentLookup, posts: seq<Post>)
    ensures forall x :: x in Samples(lookup, posts) ==> x >= 0.0
  {
    if posts != [] {
      SamplesNonNegative(lookup, posts[..|posts| - 1]);
      var p := posts[|posts| - 1];
      TimeToFirstCommentMeaning(p.createdUtc, lookup(p));
    }
  }

  // ---------------------------------------------------------------------
  // Report pieces

  function Permalink(path: string): string { "https://reddit.com" + path }

  function Summary(p: Post): PostSummary {
    PostSummary(p.title, p.score, p.numComments, Permalink(p.permalink))
  }

  function Unanswered(p: Post): UnansweredSummary {
    UnansweredSummary(p.title, Permalink(p.permalink), LooksLikeQuestion(p.title))
  }

  function Summaries(ps: seq<Post>): (r: seq<PostSummary>)
    ensures |r| == |ps|
  {
    if ps == [] then [] else Summaries(ps[..|ps| - 1]) + [Summary(ps[|ps| - 1])]
  }

  function UnansweredSummaries(ps: seq<Post>): (r: seq<UnansweredSummary>)
    ensures |r| == |ps|
  {
    if ps == [] then [] else UnansweredSummaries(ps[..|ps| - 1]) + [Unanswered(ps[|ps| - 1])]
  }

  lemma SummariesSnoc(ps: seq<Post>, p: Post)
    ensures Summaries(ps + [p]) == Summaries(ps) + [Summary(p)]
  {
    assert (ps + [p])[..|ps|] == ps;
  }

  lemma UnansweredSummariesSnoc(ps: seq<Post>, p: Post)
    ensures UnansweredSummaries(ps + [p]) == UnansweredSummaries(ps) + [Unanswered(p)]
  {
    assert (ps + [p])[..|ps|] == ps;
  }

  lemma {:induction false} SummariesAt(ps: seq<Post>)
    ensures forall i :: 0 <= i < |ps| ==> Summaries(ps)[i] == Summary(ps[i])
  {
    if ps != [] {
      SummariesAt(ps[..|ps| - 1]);
    }
  }

  lemma {:induction false} UnansweredSummariesAt(ps: seq<Post>)
    ensures forall i :: 0 <= i < |ps| ==> UnansweredSummaries(ps)[i] == Unanswered(ps[i])
  {
    if ps != [] {
      UnansweredSummariesAt(ps[..|ps| - 1]);
    }
  }

  /** `post.link_flair_text or "None"`. */
  function FlairLabel(f: Option<string>): (r: string)
    ensures f.Some? && f.value != "" ==> r == f.value
    ensures f.None? || f.value == "" ==> r == "None"
  {
    if f.Some? && f.value != "" then f.value else "None"
  }

  function TypeLabels(ps: seq<Post>): (r: seq<string>)
    ensures |r| == |ps|
  {
    if ps == [] then [] else TypeLabels(ps[..|ps| - 1]) + [DetectPostType(ps[|ps| - 1])]
  }

  function FlairLabels(ps: seq<Post>): (r: seq<string>)
    ensures |r| == |ps|
  {
    if ps == [] then [] else FlairLabels(ps[..|ps| - 1]) + [FlairLabel(ps[|ps| - 1].flair)]
  }

  lemma TypeLabelsSnoc(ps: seq<Post>, p: Post)
    ensures TypeLabels(ps + [p]) == TypeLabels(ps) + [DetectPostType(p)]
  {
    assert (ps + [p])[..|ps|] == ps;
  }

  lemma FlairLabelsSnoc(ps: seq<Post>, p: Post)
    ensures FlairLabels(ps + [p]) == FlairLabels(ps) + [FlairLabel(p.flair)]
  {
    assert (ps + [p])[..|ps|] == ps;
  }

  lemma {:induction false} TypeLabelsAt(ps: seq<Post>)
    ensures forall i :: 0 <= i < |ps| ==> TypeLabels(ps)[i] == DetectPostType(ps[i])
  {
    if ps != [] {
      TypeLabelsAt(ps[..|ps| - 1]);
    }
  }

  /** `statistics.median`: the middle of the sorted samples, or the mean of the two middles. */
  function Ascending(a: real, b: real): bool { b <= a }
  function Identity(x: real): real { x }

  function Median(s: seq<real>): (r: real)
    requires s != []
    ensures |s| % 2 == 1 ==> r in s
  {
    var t := SortDesc(s, Identity, Ascending);
    var n := |t|;
    if n % 2 == 1 then
      assert t[n / 2] in multiset(t);
      t[n / 2]
    else (t[n / 2 - 1] + t[n / 2]) / 2.0
  }

  lemma AscendingIsTotalOrder()
    ensures TotalOrder(Ascending)
  {
  }

  /** The median lies between two of the samples, so between their minimum and maximum. */
  lemma MedianBetweenSamples(s: seq<real>)
    requires s != []
    ensures exists i, j :: 0 <= i < |s| && 0 <= j < |s| && s[i] <= Median(s) <= s[j]
  {
    var t := SortDesc(s, Identity, Ascending);
    AscendingIsTotalOrder();
    SortDescSorted(s, Identity, Ascending);
    var n := |t|;
    var lo, hi := if n % 2 == 1 then n / 2 else n / 2 - 1, n / 2;
    assert Ascending(Identity(t[hi]), Identity(t[lo])) || lo == hi;
    assert t[lo] <= Median(s) <= t[hi];
    assert t[lo] in multiset(s) && t[hi] in multiset(s);
    var i :| 0 <= i < |s| && s[i] == t[lo];
    var j :| 0 <= j < |s| && s[j] == t[hi];
  }

  lemma MedianNonNegative(s: seq<real>)
    requires s != []
    requires forall x :: x in s ==> x >= 0.0
    ensures Median(s) >= 0.0
  {
    MedianBetweenSamples(s);
    var i, j :| 0 <= i < |s| && 0 <= j < |s| && s[i] <= Median(s) <= s[j];
    assert s[i] in s;
  }

  lemma MedianExample()
    ensures Median([10.0, 20.0, 30.0]) == 20.0
  {
    assert SortDesc([10.0, 20.0, 30.0], Identity, Ascending) == [10.0, 20.0, 30.0];
  }

  /** `unanswered / total`, zero for an empty week. */
  function Rate(unanswered: int, total: int): (r: real)
    ensures total == 0 ==> r == 0.0
    ensures 0 <= unanswered <= total ==> 0.0 <= r <= 1.0
  {
    if total == 0 then 0.0 else unanswered as real / total as real
  }

  lemma RateInUnitInterval(unanswered: nat, total: nat)
    requires unanswered <= total
    ensures 0.0 <= Rate(unanswered, total) <= 1.0
  {
  }

  /** The week-over-week comparison: nothing without a previous week. */
  function Trends(totalWeek: int, rateWeek: real, totalPrev: int, unansweredPrev: int): (r: seq<Trend>)
    ensures totalPrev == 0 <==> r == []
    ensures totalPrev != 0 ==>
      && |r| == 2
      && r[0].metric == PostsMetric && r[1].metric == RateMetric
      && r[0].current == totalWeek as real && r[0].previous == totalPrev as real
      && r[1].current == rateWeek && r[1].previous == Rate(unansweredPrev, totalPrev)
    ensures forall t :: t in r ==> t.delta == t.current - t.previous
  {
    if totalPrev == 0 then []
    else
      var prevRate := Rate(unansweredPrev, totalPrev);
      [Trend(PostsMetric, totalWeek as real, totalPrev as real, (totalWeek - totalPrev) as real),
       Trend(RateMetric, rateWeek, prevRate, rateWeek - prevRate)]
  }

  /** `recent_limit`: five times the larger list limit, and never under 50. */
  function RecentLimit(topLimit: int, unansweredLimit: int): (r: nat)
    ensures r >= 50 && r >= 5 * topLimit && r >= 5 * unansweredLimit
    ensures r == 50 || r == 5 * topLimit || r == 5 * unansweredLimit
  {
    var m := if topLimit >= unansweredLimit then topLimit else unansweredLimit;
    if m * 5 >= 50 then m * 5 else 50
  }

  // ---------------------------------------------------------------------
  // The run, stated by selection

  /** The `subreddit.new(limit=recent_limit)` batch: the whole batch is read,
      there is no early stop at the previous-week boundary. */
  function Batch(recentFeed: seq<Post>, topLimit: int, unansweredLimit: int): seq<Post> {
    Take(recentFeed, RecentLimit(topLimit, unansweredLimit))
  }

  /** The posts listed as unanswered: the first `cap` zero-comment current-week posts. */
  function Listed(now: int, cap: nat, batch: seq<Post>): seq<Post> {
    Take(Select(now, ZeroCurrent, batch), cap)
  }

  /** The posts whose comments are looked up: the first 30 latency candidates. */
  function Attempts(now: int, cap: nat, batch: seq<Post>): seq<Post> {
    Take(LatencyCandidates(now, cap, batch), TtfCap)
  }

  function RisingList(now: int, topCap: nat, batch: seq<Post>): seq<Post> {
    Take(Select(now, Rising, batch), topCap)
  }

  /** The variables the aggregation loop keeps. */
  datatype Tallies = Tallies(
    totalWeek: int,
    unansweredWeek: int,
    totalPrev: int,
    unansweredPrev: int,
    ttfChecked: int,
    unanswered: seq<UnansweredSummary>,
    aging: seq<UnansweredSummary>,
    rising: seq<PostSummary>,
    samples: seq<real>,
    typeMix: Counts,
    flairs: Counts)

  /** What the loop variables hold once the posts `seen` have been read. */
  ghost function TalliesOf(now: int, topCap: nat, cap: nat, lookup: CommentLookup, seen: seq<Post>): Tallies {
    var current := Select(now, CurrentWeek, seen);
    Tallies(
      totalWeek := |current|,
      unansweredWeek := |Listed(now, cap, seen)|,
      totalPrev := |Select(now, PreviousWeek, seen)|,
      unansweredPrev := |Select(now, ZeroPrevious, seen)|,
      ttfChecked := |Attempts(now, cap, seen)|,
      unanswered := UnansweredSummaries(Listed(now, cap, seen)),
      aging := UnansweredSummaries(Select(now, Aging, Listed(now, cap, seen))),
      rising := Summaries(RisingList(now, topCap, seen)),
      samples := Samples(lookup, Attempts(now, cap, seen)),
      typeMix := Tally(TypeLabels(current)),
      flairs := Tally(FlairLabels(current)))
  }

  /** What one run reports. */
  ghost function WeeklyReport(
    now: int, topFeed: seq<Post>, recentFeed: seq<Post>, lookup: CommentLookup,
    topLimit: int, unansweredLimit: int, includeSections: Option<Sections>): SubredditReport
  {
    var t := TalliesOf(now, Cap(topLimit), Cap(unansweredLimit), lookup, Batch(recentFeed, topLimit, unansweredLimit));
    var rate := Rate(t.unansweredWeek, t.totalWeek);
    SubredditReport(
      topPosts := Summaries(Take(topFeed, Cap(topLimit))),
      risingPosts := t.rising,
      unanswered := t.unanswered,
      agingUnanswered := t.aging,
      metrics := MetricsSnapshot(
        totalPosts := t.totalWeek,
        unanswered := t.unansweredWeek,
        unansweredRate := rate,
        medianTtfMinutes := if t.samples == [] then None else Some(Median(t.samples)),
        postTypeMix := t.typeMix,
        flairDistribution := t.flairs),
      trends := Trends(t.totalWeek, rate, t.totalPrev, t.unansweredPrev),
      history := [],
      includeSections := SectionsOrDefault(includeSections))
  }

  // ---------------------------------------------------------------------
  // The run, as the loop does it

  /** `collect_weekly_report`: the top listing copied out, then one pass over
      the recent-post batch, then the rate, the median and the trends. */
  method CollectWeeklyReport(
    now: int, topFeed: seq<Post>, recentFeed: seq<Post>, lookup: CommentLookup,
    topLimit: int, unansweredLimit: int, includeSections: Option<Sections>)
    returns (report: SubredditReport)
    ensures report == WeeklyReport(now, topFeed, recentFeed, lookup, topLimit, unansweredLimit, includeSections)
    ensures |report.topPosts| <= Cap(topLimit) && |report.risingPosts| <= Cap(topLimit)
    ensures |report.unanswered| <= Cap(unansweredLimit) && |report.agingUnanswered| <= |report.unanswered|
    ensures report.metrics.unanswered == |report.unanswered| <= report.metrics.totalPosts
    ensures 0.0 <= report.metrics.unansweredRate <= 1.0
  {
    var topPosts: seq<PostSummary> := [];
    var tops := Take(topFeed, Cap(topLimit));
    var k := 0;
    while k < |tops|
      invariant 0 <= k <= |tops|
      invariant topPosts == Summaries(tops[..k])
    {
      assert tops[..k + 1][..k] == tops[..k];
      topPosts := topPosts + [Summary(tops[k])];
      k := k + 1;
    }
    assert tops[..k] == tops;

    var recentLimit := RecentLimit(topLimit, unansweredLimit);
    var batch := Take(recentFeed, recentLimit);
    var acc := Aggregate(now, topLimit, unansweredLimit, lookup, batch);

    var rate := if acc.totalWeek != 0 then acc.unansweredWeek as real / acc.totalWeek as real else 0.0;
    var medianTtf := if acc.samples == [] then None else Some(Median(acc.samples));
    var metrics := MetricsSnapshot(acc.totalWeek, acc.unansweredWeek, rate, medianTtf, acc.typeMix, acc.flairs);
    var trends := WeekOverWeek(acc.totalWeek, rate, acc.totalPrev, acc.unansweredPrev);
    assert rate == Rate(acc.unansweredWeek, acc.totalWeek);
    report := SubredditReport(topPosts, acc.rising, acc.unanswered, acc.aging, metrics, trends, [],
                              SectionsOrDefault(includeSections));
    WeeklyReportProperties(now, topFeed, recentFeed, lookup, topLimit, unansweredLimit, includeSections);
  }

  /** The trend list of `collect_weekly_report`, built by appending. */
  method WeekOverWeek(totalWeek: int, rate: real, totalPrev: int, unansweredPrev: int) returns (trends: seq<Trend>)
    ensures trends == Trends(totalWeek, rate, totalPrev, unansweredPrev)
  {
    trends := [];
    if totalPrev != 0 {
      trends := trends + [Trend(PostsMetric, totalWeek as real, totalPrev as real,
                                (totalWeek - totalPrev) as real)];
    }
    if totalPrev != 0 {
      var prevRate := if totalPrev != 0 then unansweredPrev as real / totalPrev as real else 0.0;
      trends := trends + [Trend(RateMetric, rate, prevRate, rate - prevRate)];
    }
  }

  /** The aggregation loop over the recent-post batch. */
  method Aggregate(now: int, topLimit: int, unansweredLimit: int, lookup: CommentLookup, batch: seq<Post>)
    returns (acc: Tallies)
    ensures acc == TalliesOf(now, Cap(topLimit), Cap(unansweredLimit), lookup, batch)
  {
    acc := Tallies(0, 0, 0, 0, 0, [], [], [], [], [], []);
    var i := 0;
    while i < |batch|
      invariant 0 <= i <= |batch|
      invariant acc == TalliesOf(now, Cap(topLimit), Cap(unansweredLimit), lookup, batch[..i])
    {
      assert batch[..i + 1] == batch[..i] + [batch[i]];
      ghost var before := acc;
      TalliesStep(now, Cap(unansweredLimit), Cap(topLimit), lookup, batch[..i], batch[i]);
      acc := Observe(now, topLimit, unansweredLimit, lookup, acc, batch[i]);
      AdvancesDeterministic(now, Cap(unansweredLimit), Cap(topLimit), lookup, before, batch[i], acc,
                            TalliesOf(now, Cap(topLimit), Cap(unansweredLimit), lookup, batch[..i + 1]));
      i := i + 1;
    }
    assert batch[..i] == batch;
  }

  /** The body of the aggregation loop, for one post of the batch. */
  method Observe(
    now: int, topLimit: int, unansweredLimit: int, lookup: CommentLookup, acc: Tallies, post: Post)
    returns (next: Tallies)
    requires |acc.aging| <= |acc.unanswered|
    ensures Advances(now, Cap(unansweredLimit), Cap(topLimit), lookup, acc, post, next)
  {
    var created := post.createdUtc;
    if created >= now - Week {
      next := ObserveCurrent(now, topLimit, unansweredLimit, lookup, acc, post);
    } else if now - 2 * Week <= created < now - Week {
      next := acc.(totalPrev := acc.totalPrev + 1);
      if post.numComments == 0 {
        next := next.(unansweredPrev := next.unansweredPrev + 1);
      }
    } else {
      next := acc;
    }
  }

  /** The loop body for a post of the current week: its counters, then the
      unanswered lists or a latency sample, then the rising list. */
  method ObserveCurrent(
    now: int, topLimit: int, unansweredLimit: int, lookup: CommentLookup, acc: Tallies, post: Post)
    returns (next: Tallies)
    requires InCurrentWeek(now, post)
    requires |acc.aging| <= |acc.unanswered|
    ensures Advances(now, Cap(unansweredLimit), Cap(topLimit), lookup, acc, post, next)
  {
    var counted := CountCurrent(now, acc, post);
    var commented := ObserveComments(now, unansweredLimit, lookup, counted, post);
    next := ObserveRising(now, topLimit, commented, post);
  }

  /** The week's post count, type mix and flair distribution take the post. */
  method CountCurrent(now: int, acc: Tallies, post: Post) returns (next: Tallies)
    requires InCurrentWeek(now, post)
    ensures CountersAdvance(now, acc, post, next)
    ensures next.unansweredWeek == acc.unansweredWeek && next.unanswered == acc.unanswered
         && next.aging == acc.aging && next.rising == acc.rising
         && next.ttfChecked == acc.ttfChecked && next.samples == acc.samples
  {
    var flair := FlairLabel(post.flair);
    next := acc.(totalWeek := acc.totalWeek + 1,
                 flairs := Bump(acc.flairs, flair),
                 typeMix := Bump(acc.typeMix, DetectPostType(post)));
  }

  /** A fresh post earning at least 5 points an hour joins the rising list while there is room. */
  method ObserveRising(now: int, topLimit: int, acc: Tallies, post: Post) returns (next: Tallies)
    ensures RisingAdvances(now, Cap(topLimit), acc, post, next)
    ensures next.(rising := acc.rising) == acc
  {
    next := acc;
    var age := now - post.createdUtc;
    if 0 < age <= 172800 {
      if post.score * 3600 >= 5 * age && |next.rising| < topLimit {
        next := next.(rising := next.rising + [Summary(post)]);
      }
    }
  }

  /** The `if ... elif` of the loop body: a zero-comment post joins the
      unanswered lists while there is room, any other post takes a latency
      sample while fewer than 30 were taken.  The other loop variables are
      left as they are. */
  method ObserveComments(now: int, unansweredLimit: int, lookup: CommentLookup, acc: Tallies, post: Post)
    returns (next: Tallies)
    requires InCurrentWeek(now, post)
    requires |acc.aging| <= |acc.unanswered|
    ensures UnansweredAdvances(now, Cap(unansweredLimit), acc, post, next)
    ensures LatencyAdvances(now, Cap(unansweredLimit), lookup, acc, post, next)
    ensures next.totalWeek == acc.totalWeek && next.totalPrev == acc.totalPrev
         && next.unansweredPrev == acc.unansweredPrev && next.rising == acc.rising
         && next.typeMix == acc.typeMix && next.flairs == acc.flairs
  {
    next := acc;
    var age := now - post.createdUtc;
    if post.numComments == 0 && |next.unanswered| < unansweredLimit {
      var summary := Unanswered(post);
      next := next.(unansweredWeek := next.unansweredWeek + 1, unanswered := next.unanswered + [summary]);
      if 172800 <= age <= 432000 && |next.aging| < unansweredLimit {
        next := next.(aging := next.aging + [summary]);
      }
    } else if next.ttfChecked < TtfCap {
      var ttf := TimeToFirstCommentMinutes(post.createdUtc, lookup(post));
      if ttf.Some? {
        next := next.(samples := next.samples + [ttf.value]);
      }
      next := next.(ttfChecked := next.ttfChecked + 1);
    }
  }

  // ---------------------------------------------------------------------
  // One post more

  /** How every loop variable changes when `p` is read: the counters of the
      week `p` falls in go up, a zero-comment current-week post joins the
      unanswered list (and the aging list inside its window) while there is
      room, any other current-week post takes a latency sample while fewer
      than 30 were taken, and a fast fresh post joins the rising list while
      there is room. */
  ghost predicate Advances(now: int, cap: nat, topCap: nat, lookup: CommentLookup, before: Tallies, p: Post, after: Tallies) {
    && CountersAdvance(now, before, p, after)
    && UnansweredAdvances(now, cap, before, p, after)
    && RisingAdvances(now, topCap, before, p, after)
    && LatencyAdvances(now, cap, lookup, before, p, after)
  }

  ghost predicate CountersAdvance(now: int, before: Tallies, p: Post, after: Tallies) {
    var cur := InCurrentWeek(now, p);
    && after.totalWeek == before.totalWeek + (if cur then 1 else 0)
    && after.totalPrev == before.totalPrev + (if Meets(now, PreviousWeek, p) then 1 else 0)
    && after.unansweredPrev == before.unansweredPrev + (if Meets(now, ZeroPrevious, p) then 1 else 0)
    && after.typeMix == (if cur then Bump(before.typeMix, DetectPostType(p)) else before.typeMix)
    && after.flairs == (if cur then Bump(before.flairs, FlairLabel(p.flair)) else before.flairs)
  }

  ghost predicate UnansweredAdvances(now: int, cap: nat, before: Tallies, p: Post, after: Tallies) {
    var listed := Meets(now, ZeroCurrent, p) && |before.unanswered| < cap;
    && after.unansweredWeek == before.unansweredWeek + (if listed then 1 else 0)
    && after.unanswered == (if listed then before.unanswered + [Unanswered(p)] else before.unanswered)
    && after.aging == (if listed && InAgingWindow(now, p) then before.aging + [Unanswered(p)] else before.aging)
  }

  ghost predicate RisingAdvances(now: int, topCap: nat, before: Tallies, p: Post, after: Tallies) {
    after.rising == (if Meets(now, Rising, p) && |before.rising| < topCap
                     then before.rising + [Summary(p)] else before.rising)
  }

  ghost predicate LatencyAdvances(now: int, cap: nat, lookup: CommentLookup, before: Tallies, p: Post, after: Tallies) {
    var sampled := InCurrentWeek(now, p) && !(p.numComments == 0 && |before.unanswered| < cap)
                   && before.ttfChecked < TtfCap;
    var t := TimeToFirstCommentMinutes(p.createdUtc, lookup(p));
    && after.ttfChecked == before.ttfChecked + (if sampled then 1 else 0)
    && after.samples == (if sampled && t.Some? then before.samples + [t.value] else before.samples)
  }

  /** A state and a post determine the next state. */
  lemma AdvancesDeterministic(now: int, cap: nat, topCap: nat, lookup: CommentLookup,
                              before: Tallies, p: Post, a: Tallies, b: Tallies)
    requires Advances(now, cap, topCap, lookup, before, p, a)
    requires Advances(now, cap, topCap, lookup, before, p, b)
    ensures a == b
  {
  }

  /** The specification moves in step with the loop: the state for `seen`
      advances to the state for `seen + [p]`, and its aging list is never
      longer than its unanswered list. */
  lemma TalliesStep(now: int, cap: nat, topCap: nat, lookup: CommentLookup, seen: seq<Post>, p: Post)
    ensures var before := TalliesOf(now, topCap, cap, lookup, seen);
            && |before.aging| <= |before.unanswered|
            && Advances(now, cap, topCap, lookup, before, p, TalliesOf(now, topCap, cap, lookup, seen + [p]))
  {
    CountersStep(now, cap, topCap, lookup, seen, p);
    UnansweredTalliesStep(now, cap, topCap, lookup, seen, p);
    RisingTalliesStep(now, cap, topCap, lookup, seen, p);
    LatencyTalliesStep(now, cap, topCap, lookup, seen, p);
  }

  lemma CountersStep(now: int, cap: nat, topCap: nat, lookup: CommentLookup, seen: seq<Post>, p: Post)
    ensures CountersAdvance(now, TalliesOf(now, topCap, cap, lookup, seen), p, TalliesOf(now, topCap, cap, lookup, seen + [p]))
  {
    SelectSnoc(now, CurrentWeek, seen, p);
    SelectSnoc(now, PreviousWeek, seen, p);
    SelectSnoc(now, ZeroPrevious, seen, p);
    var c := Select(now, CurrentWeek, seen);
    if InCurrentWeek(now, p) {
      TypeLabelsSnoc(c, p);
      FlairLabelsSnoc(c, p);
      TallySnoc(TypeLabels(c), DetectPostType(p));
      TallySnoc(FlairLabels(c), FlairLabel(p.flair));
    }
  }

  lemma UnansweredTalliesStep(now: int, cap: nat, topCap: nat, lookup: CommentLookup, seen: seq<Post>, p: Post)
    ensures var before := TalliesOf(now, topCap, cap, lookup, seen);
            && |before.aging| <= |before.unanswered|
            && UnansweredAdvances(now, cap, before, p, TalliesOf(now, topCap, cap, lookup, seen + [p]))
  {
    UnansweredStep(now, cap, seen, p);
    var listed := Listed(now, cap, seen);
    UnansweredSummariesSnoc(listed, p);
    UnansweredSummariesSnoc(Select(now, Aging, listed), p);
  }

  lemma RisingTalliesStep(now: int, cap: nat, topCap: nat, lookup: CommentLookup, seen: seq<Post>, p: Post)
    ensures RisingAdvances(now, topCap, TalliesOf(now, topCap, cap, lookup, seen), p, TalliesOf(now, topCap, cap, lookup, seen + [p]))
  {
    RisingStep(now, topCap, seen, p);
    SummariesSnoc(RisingList(now, topCap, seen), p);
  }

  lemma LatencyTalliesStep(now: int, cap: nat, topCap: nat, lookup: CommentLookup, seen: seq<Post>, p: Post)
    ensures LatencyAdvances(now, cap, lookup, TalliesOf(now, topCap, cap, lookup, seen), p, TalliesOf(now, topCap, cap, lookup, seen + [p]))
  {
    LatencyStep(now, cap, lookup, seen, p);
    UnansweredStep(now, cap, seen, p);
    UnansweredSummariesSnoc(Listed(now, cap, seen), p);
  }

  lemma UnansweredStep(now: int, cap: nat, seen: seq<Post>, p: Post)
    ensures var before := Listed(now, cap, seen);
            var after := Listed(now, cap, seen + [p]);
            && after == (if Meets(now, ZeroCurrent, p) && |before| < cap then before + [p] else before)
            && Select(now, Aging, after)
               == (if Meets(now, ZeroCurrent, p) && |before| < cap && InAgingWindow(now, p)
                   then Select(now, Aging, before) + [p] else Select(now, Aging, before))
            && |Select(now, Aging, before)| <= |before|
  {
    ListedStep(now, cap, seen, p);
    var before := Listed(now, cap, seen);
    if Meets(now, ZeroCurrent, p) && |before| < cap {
      SelectSnoc(now, Aging, before, p);
    }
  }

  lemma ListedStep(now: int, cap: nat, seen: seq<Post>, p: Post)
    ensures var before := Listed(now, cap, seen);
            Listed(now, cap, seen + [p]) == (if Meets(now, ZeroCurrent, p) && |before| < cap then before + [p] else before)
  {
    SelectSnoc(now, ZeroCurrent, seen, p);
    var z := Select(now, ZeroCurrent, seen);
    if |z| < cap {
      assert Listed(now, cap, seen) == z;
      if Meets(now, ZeroCurrent, p) {
        assert Take(z + [p], cap) == z + [p];
      }
    } else {
      assert Listed(now, cap, seen) == z[..cap];
      if Meets(now, ZeroCurrent, p) {
        assert (z + [p])[..cap] == z[..cap];
      }
    }
  }

  lemma RisingStep(now: int, topCap: nat, seen: seq<Post>, p: Post)
    ensures var before := RisingList(now, topCap, seen);
            var after := RisingList(now, topCap, seen + [p]);
            after == (if Meets(now, Rising, p) && |before| < topCap then before + [p] else before)
  {
    SelectSnoc(now, Rising, seen, p);
    var z := Select(now, Rising, seen);
    if |z| < topCap {
      assert Take(z, topCap) == z;
    } else {
      assert (z + [p])[..topCap] == z[..topCap];
    }
  }

  lemma LatencyStep(now: int, cap: nat, lookup: CommentLookup, seen: seq<Post>, p: Post)
    ensures var before := Attempts(now, cap, seen);
            var grows := InCurrentWeek(now, p) && !(p.numComments == 0 && |Listed(now, cap, seen)| < cap);
            var after := Attempts(now, cap, seen + [p]);
            && after == (if grows && |before| < TtfCap then before + [p] else before)
            && Samples(lookup, after)
               == (if grows && |before| < TtfCap
                   then Samples(lookup, before)
                        + (var t := TimeToFirstCommentMinutes(p.createdUtc, lookup(p)); if t.Some? then [t.value] else [])
                   else Samples(lookup, before))
  {
    assert (seen + [p])[..|seen|] == seen;
    var z := LatencyCandidates(now, cap, seen);
    var zc := Select(now, ZeroCurrent, seen);
    assert |Listed(now, cap, seen)| < cap <==> |zc| < cap;
    if |z| >= TtfCap {
      assert (z + [p])[..TtfCap] == z[..TtfCap];
    } else {
      assert Take(z, TtfCap) == z;
      assert (z + [p])[..|z|] == z;
    }
  }

  // ---------------------------------------------------------------------
  // Properties of a run

  /** Caps, counters and the rate of a run. */
  lemma WeeklyReportProperties(
    now: int, topFeed: seq<Post>, recentFeed: seq<Post>, lookup: CommentLookup,
    topLimit: int, unansweredLimit: int, includeSections: Option<Sections>)
    ensures var r := WeeklyReport(now, topFeed, recentFeed, lookup, topLimit, unansweredLimit, includeSections);
      && |r.topPosts| <= Cap(topLimit) && |r.risingPosts| <= Cap(topLimit)
      && |r.unanswered| <= Cap(unansweredLimit) && |r.agingUnanswered| <= |r.unanswered|
      && r.metrics.unanswered == |r.unanswered| <= r.metrics.totalPosts
      && 0.0 <= r.metrics.unansweredRate <= 1.0
      && (r.metrics.totalPosts == 0 ==> r.metrics.unansweredRate == 0.0)
  {
    var batch := Batch(recentFeed, topLimit, unansweredLimit);
    var listed := Listed(now, Cap(unansweredLimit), batch);
    SelectNarrower(now, ZeroCurrent, CurrentWeek, batch);
    RateInUnitInterval(|listed|, |Select(now, CurrentWeek, batch)|);
  }

  /** Previous-week zero-comment posts never outnumber previous-week posts. */
  lemma PreviousWeekCounts(now: int, batch: seq<Post>)
    ensures |Select(now, ZeroPrevious, batch)| <= |Select(now, PreviousWeek, batch)|
  {
    SelectNarrower(now, ZeroPrevious, PreviousWeek, batch);
  }

  /** Every aging entry is an unanswered entry, for a zero-comment
      current-week post of the batch aged 48 to 120 hours. */
  lemma AgingIsUnansweredSubset(now: int, cap: nat, batch: seq<Post>)
    ensures var listed := Listed(now, cap, batch);
      forall a :: a in UnansweredSummaries(Select(now, Aging, listed)) ==>
        && a in UnansweredSummaries(listed)
        && exists p ::
             p in batch && a == Unanswered(p) && p.numComments == 0
             && InCurrentWeek(now, p) && 172800 <= Age(now, p) <= 432000
  {
    var listed := Listed(now, cap, batch);
    var aged := Select(now, Aging, listed);
    SelectSound(now, Aging, listed);
    SelectSound(now, ZeroCurrent, batch);
    UnansweredSummariesAt(listed);
    UnansweredSummariesAt(aged);
    forall a | a in UnansweredSummaries(aged)
      ensures a in UnansweredSummaries(listed)
      ensures exists p ::
        p in batch && a == Unanswered(p) && p.numComments == 0
        && InCurrentWeek(now, p) && 172800 <= Age(now, p) <= 432000
    {
      var i :| 0 <= i < |aged| && a == UnansweredSummaries(aged)[i];
      var p := aged[i];
      assert p in listed;
      var j :| 0 <= j < |listed| && listed[j] == p;
      assert UnansweredSummaries(listed)[j] == a;
      assert p in Select(now, ZeroCurrent, batch);
    }
  }

  /** Every rising entry comes from a fresh current-week post of the batch
      with at least 5 points per hour, in feed order. */
  lemma RisingPostsAreFast(now: int, topCap: nat, batch: seq<Post>)
    ensures var rs := Select(now, Rising, batch);
      && Summaries(RisingList(now, topCap, batch)) == Summaries(Take(rs, topCap))
      && forall i :: 0 <= i < |Take(rs, topCap)| ==>
           && rs[i] in batch && InCurrentWeek(now, rs[i])
           && 0 < Age(now, rs[i]) <= 172800 && rs[i].score * 3600 >= 5 * Age(now, rs[i])
  {
    var rs := Select(now, Rising, batch);
    SelectSound(now, Rising, batch);
    forall i | 0 <= i < |Take(rs, topCap)| ensures rs[i] in rs { }
  }

  /** The latency sampler never makes more than 30 lookups, and keeps at most one sample per lookup. */
  lemma LatencySamplingBounded(now: int, cap: nat, lookup: CommentLookup, batch: seq<Post>)
    ensures |Samples(lookup, Attempts(now, cap, batch))| <= |Attempts(now, cap, batch)| <= 30
  {
  }

  /** A zero-comment post met once the unanswered list is full takes the
      latency branch: it becomes a latency candidate and is not listed. */
  lemma FullListSendsZeroCommentPostToSampler(now: int, cap: nat, seen: seq<Post>, p: Post)
    requires InCurrentWeek(now, p) && p.numComments == 0
    requires |Select(now, ZeroCurrent, seen)| >= cap
    ensures LatencyCandidates(now, cap, seen + [p]) == LatencyCandidates(now, cap, seen) + [p]
    ensures Listed(now, cap, seen + [p]) == Listed(now, cap, seen)
  {
    assert (seen + [p])[..|seen|] == seen;
    UnansweredStep(now, cap, seen, p);
  }

  /** The type mix and the flair distribution each count every current-week post once. */
  lemma MixCountsCurrentWeek(now: int, topCap: nat, cap: nat, lookup: CommentLookup, batch: seq<Post>)
    ensures var t := TalliesOf(now, topCap, cap, lookup, batch);
      && Total(t.typeMix) == t.totalWeek && Total(t.flairs) == t.totalWeek
      && DistinctKeys(t.typeMix) && DistinctKeys(t.flairs)
      && (forall k :: k in KeysOf(t.typeMix) ==> k in PostTypes)
  {
    var current := Select(now, CurrentWeek, batch);
    TallyCounts(TypeLabels(current));
    TallyCounts(FlairLabels(current));
    TypeLabelsAt(current);
    forall p | p in current ensures DetectPostType(p) in PostTypes {
      DetectPostTypeCases(p);
    }
  }

  /** A run's median latency is absent exactly when no sample was collected, and never negative. */
  lemma MedianOfRun(
    now: int, topFeed: seq<Post>, recentFeed: seq<Post>, lookup: CommentLookup,
    topLimit: int, unansweredLimit: int, includeSections: Option<Sections>)
    ensures var r := WeeklyReport(now, topFeed, recentFeed, lookup, topLimit, unansweredLimit, includeSections);
      var samples := Samples(lookup, Attempts(now, Cap(unansweredLimit), Batch(recentFeed, topLimit, unansweredLimit)));
      && (r.metrics.medianTtfMinutes.None? <==> samples == [])
      && (r.metrics.medianTtfMinutes.Some? ==> r.metrics.medianTtfMinutes.value >= 0.0)
  {
    var samples := Samples(lookup, Attempts(now, Cap(unansweredLimit), Batch(recentFeed, topLimit, unansweredLimit)));
    if samples != [] {
      SamplesNonNegative(lookup, Attempts(now, Cap(unansweredLimit), Batch(recentFeed, topLimit, unansweredLimit)));
      MedianNonNegative(samples);
    }
  }
}
