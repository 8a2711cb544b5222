/** The report records of `core/models.py`, and `collections.Counter`
    turned into a dict: an association list that keeps keys in the order
    they were first counted (the order `dict(counter)` iterates them in). */
module Models {
  import opened Wrappers

  datatype PostSummary = PostSummary(title: string, score: int, comments: int, permalink: string)

  datatype UnansweredSummary = UnansweredSummary(title: string, permalink: string, questionLike: bool)

  /** `dict(Counter)`: (key, count) pairs, keys distinct, in first-insertion order. */
  type Counts = seq<(string, int)>

  datatype MetricsSnapshot = MetricsSnapshot(
    totalPosts: int,
    unanswered: int,
    unansweredRate: real,
    medianTtfMinutes: Option<real>,
    postTypeMix: Counts,
    flairDistribution: Counts)

  datatype Trend = Trend(metric: string, current: real, previous: real, delta: real)

  /** The two week-over-week metrics. */
  const PostsMetric: string := "posts_week_over_week"
  const RateMetric: string := "unanswered_rate_week_over_week"

  datatype HistoryEntry = HistoryEntry(
    date: string,
    subreddit: string,
    totalPosts: int,
    unanswered: int,
    unansweredRate: real,
    medianTtfMinutes: Option<real>)

  /** Section-visibility flags, keyed by section name. */
  type Sections = map<string, bool>

  datatype SubredditReport = SubredditReport(
    topPosts: seq<PostSummary>,
    risingPosts: seq<PostSummary>,
    unanswered: seq<UnansweredSummary>,
    agingUnanswered: seq<UnansweredSummary>,
    metrics: MetricsSnapshot,
    trends: seq<Trend>,
    history: seq<HistoryEntry>,
    includeSections: Sections)

  const SectionNames: seq<string> := ["stats", "trends", "top_posts", "unanswered"]

  /** Every section shown. */
  const AllSections: Sections := map["stats" := true, "trends" := true, "top_posts" := true, "unanswered" := true]

  /** `include_sections or {...all True...}`: an absent or empty mapping means all sections. */
  function SectionsOrDefault(given: Option<Sections>): (r: Sections)
    ensures given.Some? && given.value != map[] ==> r == given.value
    ensures given.None? || given.value == map[] ==> r == AllSections
  {
    if given.Some? && given.value != map[] then given.value else AllSections
  }

  // ---- counters ----

  ghost predicate DistinctKeys(c: Counts) {
    forall i, j :: 0 <= i < j < |c| ==> c[i].0 != c[j].0
  }

  /** `counter[k]`: zero for a key never counted. */
  function CountOf(c: Counts, k: string): int {
    if c == [] then 0 else if c[0].0 == k then c[0].1 else CountOf(c[1..], k)
  }

  function KeysOf(c: Counts): seq<string> {
    if c == [] then [] else [c[0].0] + KeysOf(c[1..])
  }

  /** Sum of all counts. */
  function Total(c: Counts): int {
    if c == [] then 0 else c[0].1 + Total(c[1..])
  }

  /** `counter[k] += 1`: an existing key keeps its place, a new key goes last. */
  function Bump(c: Counts, k: string): (r: Counts)
    ensures |r| == if k in KeysOf(c) then |c| else |c| + 1
    ensures Total(r) == Total(c) + 1
    ensures KeysOf(r) == if k in KeysOf(c) then KeysOf(c) else KeysOf(c) + [k]
  {
    if c == [] then [(k, 1)]
    else if c[0].0 == k then [(k, c[0].1 + 1)] + c[1..]
    else
      assert KeysOf(c) == [c[0].0] + KeysOf(c[1..]);
      [c[0]] + Bump(c[1..], k)
  }

  /** Counting every label of `ls` in turn, as the aggregation loop does. */
  function Tally(ls: seq<string>): Counts {
    if ls == [] then [] else Bump(Tally(ls[..|ls| - 1]), ls[|ls| - 1])
  }

  lemma TallySnoc(ls: seq<string>, x: string)
    ensures Tally(ls + [x]) == Bump(Tally(ls), x)
  {
    assert (ls + [x])[..|ls|] == ls;
  }

  lemma {:induction false} BumpCount(c: Counts, k: string, j: string)
    ensures CountOf(Bump(c, k), j) == CountOf(c, j) + (if j == k then 1 else 0)
  {
    if c != [] && c[0].0 != k {
      BumpCount(c[1..], k, j);
    }
  }

  lemma {:induction false} KeysOfDistinct(c: Counts)
    requires DistinctKeys(c)
    ensures forall i, j :: 0 <= i < j < |KeysOf(c)| ==> KeysOf(c)[i] != KeysOf(c)[j]
    ensures |KeysOf(c)| == |c|
  {
    if c != [] {
      KeysOfDistinct(c[1..]);
      KeysOfElems(c[1..]);
    }
  }

  lemma {:induction false} KeysOfElems(c: Counts)
    ensures |KeysOf(c)| == |c|
    ensures forall i :: 0 <= i < |c| ==> KeysOf(c)[i] == c[i].0
  {
    if c != [] {
      KeysOfElems(c[1..]);
    }
  }

  lemma {:induction false} BumpDistinct(c: Counts, k: string)
    requires DistinctKeys(c)
    ensures DistinctKeys(Bump(c, k))
  {
    var r := Bump(c, k);
    KeysOfElems(c);
    KeysOfElems(r);
    forall i, j | 0 <= i < j < |r| ensures r[i].0 != r[j].0 {
      assert r[i].0 == KeysOf(r)[i] && r[j].0 == KeysOf(r)[j];
      if k in KeysOf(c) {
        assert c[i].0 != c[j].0;
      } else if j < |c| {
        assert c[i].0 != c[j].0;
      } else {
        assert KeysOf(r)[j] == k && KeysOf(r)[i] == KeysOf(c)[i];
      }
    }
  }

  /** The tally of a label sequence counts each label exactly as often as it
      occurs, keeps keys distinct, lists exactly the labels that occur, and
      its counts add up to the number of labels. */
  lemma {:induction false} TallyCounts(ls: seq<string>)
    ensures DistinctKeys(Tally(ls))
    ensures forall k :: CountOf(Tally(ls), k) == multiset(ls)[k]
    ensures forall k :: k in KeysOf(Tally(ls)) <==> k in ls
    ensures Total(Tally(ls)) == |ls|
  {
    if ls != [] {
      var init, last := ls[..|ls| - 1], ls[|ls| - 1];
      assert ls == init + [last];
      TallyCounts(init);
      BumpDistinct(Tally(init), last);
      forall k ensures CountOf(Tally(ls), k) == multiset(ls)[k] {
        BumpCount(Tally(init), last, k);
      }
    }
  }
}
