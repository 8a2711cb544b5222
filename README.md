# Community Health Bot — a verified model of its reporting core

The Community Health Bot reads a Reddit community's recent posts once a week.
It computes health metrics: how many posts went unanswered, how quickly
posts get their first comment, which posts are rising, and the mix of
post types and flairs. It compares them with the previous week, keeps a CSV
history, and renders everything as a Markdown summary that can also be posted
to a chat webhook. This project models that core in Dafny and proves the
properties the code promises.

- `analytics.dfy` (module `Analytics`) is the weekly aggregation engine
  (`collect_weekly_report`):
  - one pass over the recent-post batch, as a loop whose state is proved equal,
    post by post, to a specification stated as selections over the batch;
  - the capped unanswered, aging and rising lists, the capped latency sampling,
    the rate, the median and the week-over-week trends;
  - the post-type and question tests and the time to first comment.
- `history.dfy` (`History`) covers which CSV rows become entries, how an entry
  is written back, and the per-community recent history.
- `reporting.dfy` (`Reporting`) covers the Markdown lines: sentinels, ordering,
  truncation, direction markers and section gating.
- `settings.dfy` (`Settings`) covers per-community config defaulting, the
  required environment variables and the user-agent check.
- `rate_limit.dfy`, `mock_data.dfy` and `webhook.dfy` cover the backoff
  decision, the mock report and the webhook payload.
- `models.dfy` holds the records of `core/models.py` and the counters.
- `wrappers.dfy`, `strings.dfy`, `seqs.dfy` and `sorting.dfy` are shared helpers:
  - `Option` and `Result`;
  - strings (ASCII lower-casing, substring search, join, Python's
    lexicographic `<=`);
  - Python-style slicing;
  - one stable sort, proved sorted, a permutation and stable.

Modelling choices:
- The clock, the Reddit listings and the comment fetch are inputs:
  - `now` is integer epoch seconds;
  - the two listings are sequences of post records;
  - the comment fetch is a lookup returning `Option<seq<int>>`.
- Hour tests are stated in seconds, so `48 <= hours_old <= 120` is
  `172800 <= age <= 432000`, and `score / hours_old >= 5` is
  `score * 3600 >= 5 * age`.
- A listing's `limit` takes a prefix of its feed.
- `collections.Counter` becomes an association list kept in first-insertion
  order, the order in which `dict(counter)` iterates and in which
  `_fmt_top_items` breaks ties.
- Rates and minutes are exact reals.

Where the code disagrees with itself: `core/models.py:39-47` declares
`SubredditReport` without an `include_sections` field. Yet
`services/analytics.py:165-179` and `services/mock_data.py:66-76` pass one,
`services/reporting.py:81` reads it, and `tests/test_mock_data.py:10` checks it.
As written, the constructor calls at `services/analytics.py:165` and
`services/mock_data.py:66` raise `TypeError` on every run, because the dataclass
has no such field. The model shows the evidently intended behaviour instead,
following `services/reporting.py:81` and `tests/test_mock_data.py:10`: the
record has an `includeSections` field.

## Model

| member | source | states |
|---|---|---|
| Analytics.DetectPostType | src/community_health_bot/services/analytics.py:11-20 | `_detect_post_type`: the label is always one of poll, gallery, video, self, link. |
| Analytics.DetectPostTypeCases | src/community_health_bot/services/analytics.py:11-20 | The label is one of poll, gallery, video, self, link. Each label is produced exactly when its flag is the first one set in that precedence order. |
| Analytics.DetectPostTypeIsFirstMatch | src/community_health_bot/services/analytics.py:11-20 | The label equals a reference "first set flag, else link" search over the flags in precedence order. |
| Analytics.TimeToFirstCommentMinutes | src/community_health_bot/services/analytics.py:22-37 | `_time_to_first_comment_minutes`: the result is absent exactly when the fetch failed or found no comments, and is never negative. |
| Analytics.TimeToFirstCommentMeaning | src/community_health_bot/services/analytics.py:28-37 | The result is absent exactly when the comment fetch failed or returned no comments. Otherwise it is non-negative, and it is the earliest comment's delay (clamped at 0) in minutes: no later than any comment and equal to one of them. |
| Analytics.LooksLikeQuestion | src/community_health_bot/services/analytics.py:40-43 | `_looks_like_question`: a title containing `?` is always question-like. |
| Analytics.LooksLikeQuestionIff | src/community_health_bot/services/analytics.py:40-43 | A title is question-like iff it contains `?` or its lower-cased form starts with one of the 11 interrogative words. |
| Analytics.QuestionByRawPrefix | src/community_health_bot/services/analytics.py:40-43 | The prefix test is raw: "Issue with the installer" counts as a question because it starts with "is". |
| Analytics.NotAQuestionWithoutMarkOrPrefix | src/community_health_bot/services/analytics.py:40-43 | A title without `?` whose first letter starts no interrogative word is not question-like. |
| Analytics.RecentLimit | src/community_health_bot/services/analytics.py:84 | The recent batch size is exactly `max(max(top_posts_limit, unanswered_limit) * 5, 50)`: at least each of 50 and five times each limit, and equal to one of them. |
| Analytics.CollectWeeklyReport | src/community_health_bot/services/analytics.py:46-180 | The report equals the specification `WeeklyReport` of the whole batch, with no early stop. Top and rising lists stay within `top_posts_limit`, the unanswered list within `unanswered_limit`, and aging within unanswered. The unanswered count equals the list length and is at most the week's posts. The rate lies in [0,1]. |
| Analytics.Aggregate | src/community_health_bot/services/analytics.py:88-128 | After the loop, every counter, list and counter map equals its definition over the batch read so far. |
| Analytics.Observe | src/community_health_bot/services/analytics.py:89-128 | One loop step advances the state by the `Advances` relation. A current-week post updates its week's counters, lists and sampling. A previous-week post counts as a previous post, and as unanswered with no comments. Any other post leaves the state unchanged. |
| Analytics.ObserveCurrent | src/community_health_bot/services/analytics.py:92-124 | For a current-week post the whole state advances by `Advances`: counters, then the unanswered lists or a latency sample, then the rising list. |
| Analytics.CountCurrent | src/community_health_bot/services/analytics.py:92-94 | The week's post count goes up by one, and the post's type label and flair (`"None"` when absent) are each bumped once. No list and no sampling state changes. |
| Analytics.ObserveComments | src/community_health_bot/services/analytics.py:96-111 | A zero-comment post joins the unanswered list while it has room, and the aging list too inside 48 to 120 hours. Otherwise, while fewer than 30 lookups were made, one lookup is counted and a returned time is sampled. The `elif` sends a zero-comment post to the sampler once the list is full. Counters, rising list and maps are unchanged. |
| Analytics.ObserveRising | src/community_health_bot/services/analytics.py:113-124 | A post aged more than 0 and at most 48 hours, earning at least 5 points an hour, joins the rising list while it holds fewer than `top_posts_limit`. Nothing else changes. |
| Analytics.TalliesStep | src/community_health_bot/services/analytics.py:88-128 | The specification of the batch read so far advances by `Advances` to that of the batch one post longer, and its aging list is never longer than its unanswered list. |
| Analytics.AdvancesDeterministic | src/community_health_bot/services/analytics.py:89-128 | A state and a post determine the next state, so the loop and the specification cannot drift apart. |
| Analytics.ListedStep | src/community_health_bot/services/analytics.py:96 | The unanswered selection grows by the post exactly when it is a zero-comment current-week post and the list still has room. |
| Analytics.WeekOverWeek | src/community_health_bot/services/analytics.py:142-163 | The trend list built by the two guarded appends equals `Trends`. |
| Analytics.Trends | src/community_health_bot/services/analytics.py:142-163 | There are no trends iff the previous week had no posts. Otherwise there are exactly two, posts first and then the unanswered rate, with their current and previous values. Every delta equals current minus previous. |
| Analytics.WeeklyReportProperties | src/community_health_bot/services/analytics.py:73-130 | A run's lists respect their caps and the unanswered count matches its list. The rate is in [0,1], and is 0 when the week had no posts. |
| Analytics.PreviousWeekCounts | src/community_health_bot/services/analytics.py:125-128 | Previous-week unanswered posts never outnumber previous-week posts. |
| Analytics.AgingIsUnansweredSubset | src/community_health_bot/services/analytics.py:96-106 | Every aging entry is also an unanswered entry. It comes from a zero-comment current-week post of the batch aged 48 to 120 hours. |
| Analytics.RisingPostsAreFast | src/community_health_bot/services/analytics.py:113-124 | Rising entries are the batch's fresh current-week posts (0 < age <= 48h) with at least 5 points per hour, in feed order, cut to the cap. |
| Analytics.LatencySamplingBounded | src/community_health_bot/services/analytics.py:85-111 | At most 30 lookups are made, and there are no more samples than lookups. |
| Analytics.FullListSendsZeroCommentPostToSampler | src/community_health_bot/services/analytics.py:96-107 | A zero-comment current-week post met when the unanswered list is full is not listed, and it takes a latency-sampling attempt. |
| Analytics.MixCountsCurrentWeek | src/community_health_bot/services/analytics.py:90-94 | The type mix and the flair distribution each sum to the week's post count. Keys are distinct, and every type key is one of the five labels. |
| Analytics.Median | src/community_health_bot/services/analytics.py:131 | `statistics.median` of the samples: for an odd number of samples it is one of them. |
| Analytics.MedianOfRun | src/community_health_bot/services/analytics.py:131 | The median is absent exactly when no sample was collected, and is never negative. |
| Analytics.MedianBetweenSamples | src/community_health_bot/services/analytics.py:131 | The median lies between two of the samples. |
| Analytics.Rate | src/community_health_bot/services/analytics.py:130 | A zero total gives rate 0. When the unanswered count is between 0 and the total, the rate lies in [0,1]. |
| Analytics.RateInUnitInterval | src/community_health_bot/services/analytics.py:130 | When unanswered <= total, the unanswered rate lies in [0,1]. |
| Analytics.SamplesNonNegative | src/community_health_bot/services/analytics.py:107-110 | Every latency sample is non-negative. |
| Models.TallyCounts | src/community_health_bot/services/analytics.py:93-94 | The counter built by `+= 1` per label has distinct keys, and its keys are exactly the labels seen. Each key's count is the number of times it was seen, and the counts sum to the number of labels. |
| Models.SectionsOrDefault | src/community_health_bot/services/analytics.py:172-178 | Absent or empty flags mean all four sections shown; otherwise the given flags are kept. |
| Sorting.SortDescSorted | src/community_health_bot/services/history.py:68 | The sort yields its input in non-increasing key order. |
| Sorting.SortDescStable | src/community_health_bot/services/history.py:68 | The sort is stable: the elements with any one key keep their input order. |
| History.ParseOptionalFloat | src/community_health_bot/services/history.py:72-78 | `None` or `""` gives `None`; other text gives what `float()` gives, `None` where it raises. |
| History.IntField | src/community_health_bot/services/history.py:26-27 | A missing column reads as 0, and a missing cell of a short row fails the row. Otherwise the value is `int()` of the cell. |
| History.RealField | src/community_health_bot/services/history.py:28 | A missing column reads as 0.0, and a missing cell fails the row. Otherwise the value is `float()` of the cell. |
| History.RowEntry | src/community_health_bot/services/history.py:17-33 | A row with a missing or empty date or community gives no entry. An accepted entry carries the row's non-empty date and community and its optional median. |
| History.ReadHistory | src/community_health_bot/services/history.py:9-36 | A missing or unreadable file gives no entries. Otherwise the loop keeps exactly the accepted rows' entries, in row order, and each has a non-empty date and community. |
| History.Entries | src/community_health_bot/services/history.py:16-35 | The rows give at most one entry each. |
| History.EntriesWellFormed | src/community_health_bot/services/history.py:18-21 | Every entry read has a non-empty date and community. |
| History.EntryCells | src/community_health_bot/services/history.py:51-61 | A written row has the six columns, with an absent median written as the empty cell. |
| History.AppendHistory | src/community_health_bot/services/history.py:39-62 | No entries write nothing. Otherwise one record is written per entry, preceded by the header exactly when the file did not exist. |
| History.AbsentMedianRoundTrip | src/community_health_bot/services/history.py:58-60 | An absent median is written as "" and read back as absent. |
| History.EntryRoundTrip | src/community_health_bot/services/history.py:51-61 | Reading a written row back gives the same entry, when `int()`/`float()` undo `str()` on its numbers. |
| History.RowOfCellsReads | src/community_health_bot/services/history.py:44-47 | A record written under the six-column header reads back with each column holding its own cell. |
| History.RecentHistory | src/community_health_bot/services/history.py:65-69 | `recent_history_for_subreddit`: no more entries than the input, and at most `limit` for a non-negative limit. |
| History.RecentHistorySound | src/community_health_bot/services/history.py:65-69 | The recent history holds only the requested community, at most `limit` entries (6 by default), and is a sub-multiset of the input. |
| History.RecentHistoryNewestFirst | src/community_health_bot/services/history.py:67-69 | The result is a prefix of that community's entries sorted by date. It is in non-increasing ISO-date order, and no entry left out has a later date than one kept. |
| History.RecentHistoryStable | src/community_health_bot/services/history.py:68-69 | Entries with equal dates keep their input order. |
| History.DefaultRecentHistory | src/community_health_bot/services/history.py:65 | With the default limit 6 a community gets min(6, its entry count) entries, all of it. |
| History.ForSubredditSound | src/community_health_bot/services/history.py:66 | The filter keeps only the requested community's entries, each from the input. |
| Reporting.FmtTopItems | src/community_health_bot/services/reporting.py:16-21 | No items give "n/a". Otherwise the text is the shown items as `name (count)` joined by ", ". |
| Reporting.FmtTopItemsSentinel | src/community_health_bot/services/reporting.py:16-21 | For a positive `top_n`, the text is "n/a" exactly when there are no items. |
| Reporting.TopItems | src/community_health_bot/services/reporting.py:19-20 | The shown items are no more than the items, and at most `top_n` for a non-negative `top_n`. |
| Reporting.TopItemsProperties | src/community_health_bot/services/reporting.py:19-20 | At most `top_n` items are shown, all from the input. They come in non-increasing count order and are the highest counts of all, with equal counts in dict order. |
| Reporting.Direction | src/community_health_bot/services/reporting.py:30-35 | The marker is ↑ iff delta > 0, ↓ iff delta < 0, and → iff delta == 0. |
| Reporting.TrendLine | src/community_health_bot/services/reporting.py:28-40 | Each of the three trend formats is a bullet line. |
| Reporting.TrendLines | src/community_health_bot/services/reporting.py:24-41 | No trends give exactly the one sentinel line. Otherwise there is one line per trend. |
| Reporting.TrendLinesProperties | src/community_health_bot/services/reporting.py:24-41 | Line i renders trend i, and every line is a bullet. |
| Reporting.TrendLineMarksDirection | src/community_health_bot/services/reporting.py:29-38 | Each week-over-week line contains the marker of its delta's sign. |
| Reporting.FormatTrends | src/community_health_bot/services/reporting.py:24-41 | The loop builds exactly `TrendLines`. |
| Reporting.UnansweredLine | src/community_health_bot/services/reporting.py:49-50 | An unanswered post renders as a bullet line. |
| Reporting.UnansweredLines | src/community_health_bot/services/reporting.py:44-51 | No posts give "- None found"; otherwise there is one line per post. |
| Reporting.UnansweredLineMarksQuestions | src/community_health_bot/services/reporting.py:49-50 | A line ends with " (question)" iff the post is question-like, and "(question)" then occurs in it. |
| Reporting.UnansweredLinesProperties | src/community_health_bot/services/reporting.py:48-51 | Line i renders post i, and every line is a bullet. |
| Reporting.FormatUnanswered | src/community_health_bot/services/reporting.py:44-51 | The loop builds exactly `UnansweredLines`. |
| Reporting.HistoryLine | src/community_health_bot/services/reporting.py:59-62 | A history entry renders as a bullet line. |
| Reporting.HistoryLines | src/community_health_bot/services/reporting.py:54-56 | Empty history gives the single sentinel line. |
| Reporting.HistoryLinesProperties | src/community_health_bot/services/reporting.py:54-66 | Only the first four entries are shown, one line each. The average line follows exactly when more than one entry is shown. |
| Reporting.MeanRateBetween | src/community_health_bot/services/reporting.py:63-65 | The average shown lies between the lowest and the highest rate shown. |
| Reporting.FormatHistory | src/community_health_bot/services/reporting.py:54-66 | The loop builds exactly `HistoryLines`. |
| Reporting.Shown | src/community_health_bot/services/reporting.py:81-88 | A section is shown iff its flag is absent or true, whether the flag map is empty or not. |
| Reporting.ReportSections | src/community_health_bot/services/reporting.py:78-132 | A community's lines carry exactly the section headers its flags allow, in the fixed order, with `top_posts` governing both the top and the rising lists. They carry one community header, its own. |
| Reporting.SectionsOfReport | src/community_health_bot/services/reporting.py:88-132 | The shown sections contribute, in order, the stats header, the trends and history headers, the top and rising headers and the unanswered and aging headers, each only when its flag allows. |
| Reporting.SectionsHaveNoCommunityHeaders | src/community_health_bot/services/reporting.py:88-132 | No shown section contains a `## ` community header line. |
| Reporting.CommunitiesInOrder | src/community_health_bot/services/reporting.py:74-78 | Communities appear in the given order, each under one `## name` header. |
| Reporting.MarkdownCommunities | src/community_health_bot/services/reporting.py:69-78 | The whole document's community headers are the given names in order. |
| Reporting.RenderReport | src/community_health_bot/services/reporting.py:75-132 | The appends for one community build exactly its specified lines. |
| Reporting.SectionFlags | src/community_health_bot/services/reporting.py:80-88 | An empty flag map means all four sections. Each section is then shown iff its flag is absent or true. |
| Reporting.RenderCommunity | src/community_health_bot/services/reporting.py:74-78 | One loop turn looks up the community's report and appends exactly that community's lines. |
| Reporting.CommunitiesLinesSnoc | src/community_health_bot/services/reporting.py:74-78 | The lines of the first i+1 communities are those of the first i followed by community i's lines. |
| Reporting.RenderPosts | src/community_health_bot/services/reporting.py:108-126 | A post list renders as its header, then one line per post or the sentinel. |
| Reporting.BuildMarkdown | src/community_health_bot/services/reporting.py:69-133 | The document is the title, the date line and each community's lines in order, joined by newlines. A name without a report is excluded, as `KeyError`. |
| Settings.ConfigOf | src/community_health_bot/config/settings.py:85-96 | Missing limits default to 10. The section flags have exactly the four keys, each true unless given false. |
| Settings.Configs | src/community_health_bot/config/settings.py:80-97 | The loop over the YAML entries yields at most one configuration per entry. |
| Settings.ConfigsKeys | src/community_health_bot/config/settings.py:80-86 | A name has a configuration iff some entry carries it as a truthy `name`. Nameless entries are skipped. |
| Settings.ConfigsLastWins | src/community_health_bot/config/settings.py:86 | A name's configuration comes from the last entry carrying it. |
| Settings.ConfigsWellFormed | src/community_health_bot/config/settings.py:86-95 | Each configuration is filed under its own name and has the four section flags. |
| Settings.LoadSubredditConfigs | src/community_health_bot/config/settings.py:72-97 | No config file gives an empty map, and a missing file is fatal. Otherwise the loop builds exactly `Configs` of the entries. |
| Settings.Missing | src/community_health_bot/config/settings.py:53 | No more missing names than required keys. |
| Settings.MissingExactly | src/community_health_bot/config/settings.py:53 | The missing list holds exactly the required keys that are unset or empty, in order. |
| Settings.LoadSettings | src/community_health_bot/config/settings.py:38-69 | A missing variable is fatal unless `allow_missing` is set, and fatal errors come only from that or from a missing config file. A loaded value is the environment's value, falling back to the mock default only when the variable is unset. |
| Settings.CredentialsPresent | src/community_health_bot/config/settings.py:53-55 | Without `allow_missing`, a load that passes the check has every required variable set and non-empty. |
| Settings.ValidateUserAgent | src/community_health_bot/config/settings.py:100-105 | A user agent is accepted iff it is non-empty, has no `your_bot_username`, and, when patterns are given, contains one of them. |
| Settings.NoUnderscoreAccepted | src/community_health_bot/config/settings.py:101 | A non-empty user agent without `_` never matches the placeholder and passes without patterns. |
| RateLimit.ParseHeaderValue | src/community_health_bot/services/rate_limit.py:7-13 | An absent header gives `None`; other text gives `float()` of it, `None` where that raises. |
| RateLimit.SleepFor | src/community_health_bot/services/rate_limit.py:31 | The sleep is at least the buffer, at least reset plus buffer, and equal to one of them. |
| RateLimit.MaybeBackoff | src/community_health_bot/services/rate_limit.py:16-43 | There is no sleep when a header is absent or unparsable, or when remaining exceeds the threshold. A sleep happens only on a low quota and lasts at least the buffer, reset plus buffer, and 0 seconds. |
| RateLimit.Returned | src/community_health_bot/services/rate_limit.py:40-43 | The value returned is the seconds slept, or 0. |
| RateLimit.LowQuotaSleepsAtLeastBuffer | src/community_health_bot/services/rate_limit.py:27-41 | With a non-negative buffer, a low quota always sleeps `max(reset + buffer, buffer)`, and that value is returned. |
| RateLimit.DefaultBackoff | src/community_health_bot/services/rate_limit.py:14 | With the defaults (threshold 10, buffer 5), a quota of at most 10 always sleeps at least 5 seconds and at least reset plus 5, and returns that. |
| RateLimit.ReturnedNonNegative | src/community_health_bot/services/rate_limit.py:27-43 | The returned value is never negative and is positive only after a sleep. |
| MockData.GenerateMockReport | src/community_health_bot/services/mock_data.py:7-76 | `generate_mock_report`: the mock claims 42 posts, its unanswered count is its list length, and it carries three history entries. |
| MockData.Numbered | src/community_health_bot/services/mock_data.py:14-39 | `range(1, n + 1)` gives max(n,0) items, item i built from i + 1. |
| MockData.MockListsFollowLimits | src/community_health_bot/services/mock_data.py:14-40 | The top list has max(limit,0) posts, the n-th scoring 150 - 10n. Rising has max(min(4,limit),0) posts, and unanswered has max(limit,0). Aging is the prefix of length min(len, max(1, min(3, limit))). |
| MockData.MockUnansweredAreQuestions | src/community_health_bot/services/mock_data.py:32-39 | Every mock unanswered post is flagged question-like, and its title looks like a question. |
| MockData.MockMetricsAndHistory | src/community_health_bot/services/mock_data.py:42-76 | The mock has 42 posts, and its unanswered count is the list length, with the rate their ratio. It has three history entries of the community, a week apart. No flags mean all sections shown. |
| MockData.MockRateTrendDeltaFixed | src/community_health_bot/services/mock_data.py:50-53 | The posts trend's delta is current - previous. The rate trend's delta is 0.0, which never equals its current - previous. |
| Webhook.Excerpt | src/community_health_bot/services/webhook.py:10 | Content of at most 1800 characters is kept whole. Longer content becomes its first 1800 characters plus "\n…(truncated)". |
| Webhook.SendWebhook | src/community_health_bot/services/webhook.py:7-16 | There is no payload iff the URL is missing or empty. |
| Webhook.ExcerptKeepsStart | src/community_health_bot/services/webhook.py:10 | The excerpt starts with the content's first min(len, 1800) characters and is at most 1813 long. |
| Webhook.ExcerptIdempotent | src/community_health_bot/services/webhook.py:10 | Cutting an excerpt again changes nothing. |
| Webhook.PayloadCarriesExcerpt | src/community_health_bot/services/webhook.py:11-16 | `text` is `*title*`, a newline and the excerpt. `content` is `**title**`, a newline and the excerpt. |
| Strings.Contains | src/community_health_bot/config/settings.py:101-104 | Python's `p in s` on strings holds iff `p` occurs at some position of `s`. |
| Strings.Lower | src/community_health_bot/services/analytics.py:41 | Lower-casing keeps the length and maps each character by ASCII lower-casing. |
| Seqs.PyPrefix | src/community_health_bot/services/history.py:69 | Python's `s[:k]` is the first k elements, or all but the last -k for a negative k. |

## Left out

- Reddit access (`reddit/client.py`, `services/publisher.py` and the PRAW calls in `analytics.py`) is network I/O. The listings are input sequences, and the comment fetch is a lookup result.
- Clocks are parameters: `datetime.now` in `analytics.py` and `reporting.py`, and `datetime.utcnow` in `mock_data.py`.
- `time.sleep` is left out; the backoff returns the sleep it decides on.
- CSV, YAML and `.env` reading and writing, `write_output`, and `requests.post` are file and network I/O. The model starts from parsed rows and maps, and stops at the cells and payloads.
- `int()`, `float()` and `str()` of numbers, and the report's number formatting (`:.1f`, `:+.0f`, `:+.1%`), are foreign parsing and printing. They are uninterpreted parameters.
- Floating point is not modelled. Rates, minutes and the median are exact reals with no rounding and no NaN, and post and comment times are integer seconds.
- `services/cache.py` (deleting files by age), `services/logging.py` (logger setup and the `log_json` call in the backoff), `ui/app.py` and `cli.py` orchestrate I/O and are not part of this model.
- Strings.Lower: lower-cases ASCII letters only, while Python's `str.lower` folds all of Unicode.
- Analytics.TimeToFirstCommentMeaning: the lookup yields the comments' timestamps, so every comment has one. A comment without `created_utc` is not modelled. The `getattr` default at `services/analytics.py:35` only affects which comment `min` picks. When that comment is the one picked, line 36 reads its `created_utc` directly and raises `AttributeError`. This happens outside the `try`, so it aborts `collect_weekly_report`.
- Settings.ConfigOf: YAML values are taken as typed. A key present with a null value (which Python keeps as `None` instead of the default), or a non-boolean flag, is not modelled.
- Settings.LoadSubredditConfigs: the result is a map, so the dict's insertion order is not kept; the rest of the program only looks configurations up by name.
- Settings.LoadSettings: `OUTPUT_DIR` is kept as text, without `expanduser`.
- RateLimit.MaybeBackoff: the header values are what a header lookup returned. The case-insensitive header dictionary of the HTTP library is not modelled, and neither are exceptions raised while reaching it; those yield 0 just as absent headers do.
- Reporting.UnansweredLineMarksQuestions: the "iff" is proved for permalinks of at least ten characters without spaces, which covers every `https://reddit.com/...` link the engine builds; a crafted permalink ending in " (question" would break it.
- History.EntryRoundTrip: it assumes the CSV layer reads back the cells it wrote; quoting and escaping are part of the CSV module.
