# MWS Tables content monitor, modelled in Dafny

The system watches the public channels of MTS on five platforms: Telegram,
VK, YouTube, Rutube and Habr. It runs one ingestion pass at a time:

- it reads the permalinks already stored in an MWS Tables table (the
  deduplication index);
- it reads the watched channels from a second table;
- it asks one connector per platform for the five latest items of every
  channel;
- it drops items whose permalink is already stored;
- it enriches each new item with a sentiment and a summary from a language
  model;
- it appends the new posts in one request.

The same table backs a set of read-only analytics endpoints, a question
answering assistant, and a React dashboard.

The model is functional. A platform API, the tables service, the language
model and the HTML of a Habr page are all function-typed parameters: what
they answered for a given input. Each module follows one part of
`backend/main.py` or `frontend/src/App.js`:

| module | models |
|---|---|
| `Wrappers`, `Seqs`, `Text` | `Option`; Python slices, `max(key=)` and filters; string search, `split`, `replace`, `strip` and lower-casing |
| `Records` | the table's columns (`Название`, `Текст`, `Дата`, `Просмотры`, …) and the post a connector builds |
| `HabrMetric` | `parse_habr_metric` and the view-count heuristic of `parse_habr_post` |
| `Enrichment` | `analyze_text_with_llm` |
| `ChannelConfig` | `get_monitored_channels` and the `HABR_TARGET_COMPANIES` setting |
| `Harvest` | the loop every connector shares: five items per target, skip stored permalinks, drop or build |
| `TelegramConnector`, `VkConnector`, `YouTubeConnector`, `RutubeConnector`, `HabrConnector` | `fetch_telegram`, `fetch_vk`, `fetch_youtube` with `get_real_channel_id`, `fetch_rutube_data`, `fetch_habr_data` |
| `Store` | `get_existing_links`, `add_records`, `get_mws_data` |
| `Ingestion` | `update_data_logic` |
| `Ordering`, `Analytics`, `Breakdown` | `/api/data`, `/api/top/content`, `/api/stats/overview`, `/api/analytics/sentiment`, `/api/sources/performance` |
| `Assistant` | `get_smart_answer` |
| `Dashboard`, `ChatWindow` | `fetchData`, the filters, the sentiment sorter, the chart, the export button and `sendMessage` of the React app |

The central property is idempotence. Suppose a run's posts are stored,
nothing changes upstream, and the table still fits in the one page that
`get_existing_links` reads: it sends no page size and follows no further
pages. Then the next run appends nothing
(`Ingestion.SecondRunAppendsNothing`), because every connector yields
nothing against the links it produced (`*.FetchIdempotent`). Once the
table fills that page, appended rows fall outside the read and the next
run stores the same posts again (`Ingestion.FullPageRunRepeats`). No
appended post repeats a permalink the read found
(`Ingestion.AppendFresh`).

Where the code and its written description disagree, the model follows
the code:

- A Habr counter can be negative: `-1.5k` reads as -1500.
- A comma in a counter is a decimal point, never a thousands separator:
  `1,234` reads as 1.
- The sentiment is whatever string the language model returned under
  the `sentiment` key. No closed set of three is enforced.
- `get_smart_answer` does answer with a bare error text. It does so when
  a top record lacks `fields`, when the service cannot be reached, or when
  its 200 body has no `choices[0].message.content` key. When that content
  is `null`, it returns `None` rather than a text.
- Only Telegram refuses texts under five characters, and VK refuses only
  empty ones. YouTube and Rutube posts may have an empty description.
- Idempotence holds for VK, YouTube and Rutube only when a permalink
  identifies its item. One reason is an item that raised in the first run
  and, in the second, shares a permalink with a stored one. Rutube videos
  without an id all share `https://rutube.ru/video/None/`.
- The deduplication read sees only the first page of the table, so
  idempotence lasts only while the table fits in that page.
- Two client constructions sit outside any `try`: the Telegram client
  (`int(TG_API_ID)` and `start`) and the YouTube `build`. When either
  fails, the whole run ends and nothing is stored.
- A Rutube video with a `null` title or creation date raises, and that
  abandons the rest of its channel.
- When the channel table cannot be read, Habr gets the setting as split,
  neither stripped nor filtered of blanks.
- The Habr link rule looks for `/company/`, while Habr's own links (and
  the connector) use `/companies/`. Such a link loses only its slashes.
- The Rutube rule removes every `/`, not only the trailing one.
- One unreadable row without `fields` in the content table empties the
  whole deduplication index.

## Model

| member | source | states |
|---|---|---|
| HabrMetric.ParseMetricNumeral | backend/main.py:419-431 | every well-formed counter (optional sign, digits with a `.` or `,` point, optional k/K/m/M) reads as its digits times the unit factor over the fraction's power of ten, truncated toward zero, negated for `-` |
| HabrMetric.ScaleByUnit | backend/main.py:425-429 | a `k` scales the cleaned number by 1000, an `m` by 1000000, no unit by 1 |
| HabrMetric.ParseFloat | backend/main.py:426-429 | `float` succeeds only on a token holding at least one decimal digit |
| HabrMetric.ThousandsExample | backend/main.py:420 | `1.5k` reads as 1500 |
| HabrMetric.PlusExample | backend/main.py:420 | `+10` reads as 10 |
| HabrMetric.MillionsExample | backend/main.py:427-428 | `2,5M` reads as 2500000 |
| HabrMetric.CommaExample | backend/main.py:424 | `1,234` reads as 1: the comma is a decimal point |
| HabrMetric.NegativeExample | backend/main.py:424-426 | `-1.5k` reads as -1500: nothing keeps a counter non-negative |
| HabrMetric.ParseMetricOfNat | backend/main.py:429 | the decimal text of any natural number reads back as that number |
| HabrMetric.ParseMetricOfThousands | backend/main.py:425-426 | the decimal text of `n` followed by `k` reads as 1000 n |
| HabrMetric.ParseFloatShape | backend/main.py:426-429 | whatever `float` reads is, once stripped, a sign and digits with at most one `.`, and reads as those digits |
| HabrMetric.ParseMetricNonZero | backend/main.py:419-431 | a token that counts as non-zero is non-empty, and once cleaned and stripped of its unit letters it is a sign and digits with at most one `.` |
| HabrMetric.ParseMetricWithoutDigits | backend/main.py:430-431 | a token without a decimal digit reads as 0, whatever else it holds |
| HabrMetric.ArticleViewsBounds | backend/main.py:480-488 | the view count is at least 0 and at least every counter on the page, and is either 0 or one of the counters |
| Enrichment.Excerpt | backend/main.py:134-137 | no request is made exactly without a key or for a text under 5 characters; otherwise the prompt carries the first min(800, length) characters of the text |
| Enrichment.JsonSpan | backend/main.py:144 | a match of `\{.*\}` starts with `{` and ends with `}` |
| Enrichment.JsonSpanExists | backend/main.py:144-145 | the pattern matches exactly when some `{` precedes some `}` |
| Enrichment.JsonSpanBounds | backend/main.py:144 | the match runs from the first `{` to the last `}` of the reply |
| Enrichment.Analyze | backend/main.py:133-150 | the guard gives the skipped analysis; a failed request, a non-200 reply or a reply without an object gives the failure fallback |
| Enrichment.AnalyzeAnswered | backend/main.py:146-148 | a parsed object yields its `sentiment` (default `Neutral`) and `summary` (default empty) |
| Enrichment.GuardedIgnoresService | backend/main.py:134-135 | under the guard the answer does not depend on the service |
| Enrichment.AnalyzeSeesExcerpt | backend/main.py:137 | two texts that pass the guard and agree on their first 800 characters are analysed alike |
| Records.SourceNamed | backend/main.py:642-677 | a name is a platform exactly when it is one of the five platform names, and then that platform's name |
| Records.MetricNamed | backend/main.py:934-938 | a name is a metric exactly when it is one of the four Russian metric column names |
| Records.RecoverStored | backend/main.py:262-268 | the columns written for a post read back as the same post |
| ChannelConfig.ContributionAdmits | backend/main.py:644-677 | a row adds an identifier to a platform exactly when it is watched (`Смотреть`), names the platform, has a non-blank channel and a non-empty cleaned identifier; the identifier is the cleaned channel |
| ChannelConfig.CompaniesSpec | backend/main.py:680-681 | the setting's companies are, in order, the stripped parts that are not empty; a name is listed exactly when it is non-empty and some part strips to it |
| ChannelConfig.Collect | backend/main.py:641-677 | the loop lists all five platforms, each with exactly the identifiers its admitted rows give, in row order |
| ChannelConfig.ResolveChannels | backend/main.py:626-689 | the method computes the same mapping as the functional definition |
| ChannelConfig.WatchedMembers | backend/main.py:644-677 | an identifier is listed for a platform exactly when some admitted row cleans to it |
| ChannelConfig.WatchedAppend | backend/main.py:676-677 | identifiers keep row order: later rows contribute after earlier ones |
| ChannelConfig.ResolvedNonEmpty | backend/main.py:642-684 | a 200 answer lists every platform and no empty identifier |
| ChannelConfig.ResolvedFailures | backend/main.py:637-639 | a non-200 answer gives an empty mapping; a raised request gives every platform no channels except Habr, which gets the setting as split |
| ChannelConfig.CompaniesSetting | backend/main.py:55 | a setting of three comma-separated names, like the default `mts_ai,telegram,vk`, lists those names in order |
| ChannelConfig.TelegramNoAt | backend/main.py:661 | a Telegram identifier never holds an `@` |
| ChannelConfig.RutubeNoSlash | backend/main.py:667 | a Rutube identifier never holds a `/` |
| ChannelConfig.TelegramHandle | backend/main.py:661 | a `t.me` link and an `@handle` both clean to the handle |
| ChannelConfig.VkProfile | backend/main.py:663 | a `vk.com` profile link cleans to the profile name |
| ChannelConfig.YouTubePath | backend/main.py:665 | a `www.youtube.com` link cleans to what follows the host |
| ChannelConfig.RutubeChannel | backend/main.py:667 | a Rutube channel link with a trailing `/` cleans to the channel id |
| ChannelConfig.RutubeChannelExample | backend/main.py:667 | `https://rutube.ru/channel/12345/` cleans to `12345` |
| ChannelConfig.HabrCompanyLink | backend/main.py:670-671 | a `habr.com/ru/company/<name>` link cleans to the name |
| ChannelConfig.HabrCompaniesLink | backend/main.py:670-671 | a `habr.com/ru/companies/<name>` link, whose name does not itself hold the `https://habr.com/ru/company/` rule, only loses its slashes, so the host stays in the identifier |
| ChannelConfig.NoStraddle | backend/main.py:671 | the rule `https://habr.com/ru/company/` cannot start inside the `/companies/` path, so it occurs in such a link only where it occurs in the name |
| Harvest.HeadlineOneLine | backend/main.py:262 | the title of a Telegram or VK post is the first min(length, 50) characters of the text, each newline turned into a space, followed by `...`; it is at most 53 characters long and holds no newline |
| Harvest.Scan | backend/main.py:248-270 | one target yields at most as many posts as items |
| Harvest.Collect | backend/main.py:248-250 | all targets yield at most five posts each |
| Harvest.CollectOrigin | backend/main.py:248-270 | every post comes from one of the first five items of a target, under a permalink that was not stored |
| Harvest.CollectWitness | backend/main.py:248-270 | names the target and the item a collected post was built from |
| Harvest.CollectFresh | backend/main.py:253 | no collected post carries a stored permalink |
| Harvest.CollectRerun | backend/main.py:253 | with a larger stored set that holds everything the first run built, and no item that raised now counted as stored, a rerun builds nothing |
| Harvest.CollectIdempotent | backend/main.py:253 | when a permalink determines how its item is processed, a rerun against the stored links plus the first run's posts plus any unrelated links builds nothing |
| Harvest.CollectReaches | backend/main.py:248-270 | an item among the first five that builds under a new permalink is collected when no earlier item of its target raised |
| Harvest.CollectBuildsOnly | backend/main.py:262-268 | a property of every built item holds of every collected post |
| Harvest.CollectIdempotentWithoutFailures | backend/main.py:253 | without items that raise, a rerun against the stored links plus the first run's posts builds nothing |
| TelegramConnector.Fetch | backend/main.py:238-273 | no credentials or no channels give nothing; otherwise at most five posts per channel |
| TelegramConnector.FetchOrigin | backend/main.py:248-268 | every post is that of a message among a channel's first five with text of at least 5 characters and an unstored permalink |
| TelegramConnector.FetchComplete | backend/main.py:248-268 | every such message yields its post |
| TelegramConnector.FetchExact | backend/main.py:248-268 | the posts are exactly those of such messages |
| TelegramConnector.FetchFresh | backend/main.py:252-256 | every post has an unstored `t.me` permalink, is a Telegram post and has at least 5 characters of text |
| TelegramConnector.FetchIdempotent | backend/main.py:253 | a rerun against the stored links plus the first run's posts, plus anything else, yields nothing |
| VkConnector.Fetch | backend/main.py:276-313 | no token or no communities give nothing; otherwise at most five posts per community |
| VkConnector.FetchOrigin | backend/main.py:286-305 | every post is that of a wall post among the first five with text, a converted date and an unstored permalink |
| VkConnector.FetchComplete | backend/main.py:286-307 | such a wall post yields its post when no earlier wall post of its community raised |
| VkConnector.FetchFresh | backend/main.py:290-294 | every post has an unstored `vk.com/wall` permalink, is a VK post and has non-empty text |
| VkConnector.FetchIdempotent | backend/main.py:290-292 | when a permalink identifies its wall post, a rerun against the stored links plus the first run's posts, plus links outside VK, yields nothing |
| YouTubeConnector.HandleIdempotent | backend/main.py:229 | a handle is its own handle |
| YouTubeConnector.ChannelIdIgnoresLookup | backend/main.py:228 | a `UC` id never depends on the lookup |
| YouTubeConnector.ChannelIdAt | backend/main.py:229 | a name and the name with `@` resolve alike |
| YouTubeConnector.Fetch | backend/main.py:316-350 | no API key or no handles give nothing; otherwise at most five posts per handle |
| YouTubeConnector.FetchOrigin | backend/main.py:323-345 | every post is that of a video among the first five of a resolved channel with statistics and an unstored permalink |
| YouTubeConnector.FetchComplete | backend/main.py:323-347 | such a video yields its post when no earlier video of its handle raised |
| YouTubeConnector.FetchFresh | backend/main.py:334-336 | every post has an unstored `youtube.com/watch` permalink and is a YouTube post |
| YouTubeConnector.UnresolvedHandle | backend/main.py:325-326 | a handle without a channel id contributes no post |
| YouTubeConnector.FetchIdempotent | backend/main.py:334-336 | when a permalink identifies its video, a rerun against the stored links plus the first run's posts, plus links outside YouTube, yields nothing |
| RutubeConnector.SegmentSpec | backend/main.py:366-371 | the cut identifier is the slash-free run right after the first marker, ending at a `/` or at the end |
| RutubeConnector.IdentifierOfChannelLink | backend/main.py:366-371 | a channel link cleans to the stripped channel id |
| RutubeConnector.IdentifierExample | backend/main.py:366-371 | `https://rutube.ru/channel/12345/` cleans to `12345` |
| RutubeConnector.Fetch | backend/main.py:353-416 | no channels give nothing; otherwise at most five posts per channel |
| RutubeConnector.FetchOrigin | backend/main.py:391-412 | every post is that of a video among a channel's first five with an unstored permalink and a title and creation date that are not `null` |
| RutubeConnector.FetchComplete | backend/main.py:391-414 | such a video yields its post when no earlier unstored video of its channel has a `null` title or creation date |
| RutubeConnector.FetchFresh | backend/main.py:393-412 | every post has an unstored `rutube.ru/video` permalink, is a Rutube post and has no likes or reposts |
| RutubeConnector.FetchIdempotent | backend/main.py:393-397 | when a permalink identifies its video, a rerun against the stored links plus the first run's posts, plus links outside Rutube, yields nothing |
| HabrConnector.CompanySlashFree | backend/main.py:525-527 | a cleaned Habr link holds no `/` |
| HabrConnector.CompanyName | backend/main.py:525-527 | a plain company name is only stripped |
| HabrConnector.CompanyOfLink | backend/main.py:525-527 | the article list link of a company cleans to the company name |
| HabrConnector.CompanyExample | backend/main.py:525-527 | `https://habr.com/ru/companies/mts_ai/articles/` cleans to `mts_ai` |
| HabrConnector.Fetch | backend/main.py:510-589 | no companies give nothing; otherwise at most five posts per company |
| HabrConnector.FetchOrigin | backend/main.py:542-579 | every post is that of a listed article among a company's first five with a link, a readable page and an unstored permalink |
| HabrConnector.FetchComplete | backend/main.py:542-579 | every such article yields its post |
| HabrConnector.FetchFresh | backend/main.py:544-579 | every post has an unstored `habr.com` permalink, is a Habr post with a title of at most 100 characters, no reposts, a comment count and at least 0 views |
| HabrConnector.FetchIdempotent | backend/main.py:553 | a rerun against the stored links plus the first run's posts, plus anything else, yields nothing |
| Store.ExistingLinks | backend/main.py:92-102 | the deduplication index never holds the empty link and is empty unless the table answered 200 |
| Store.ExistingLinksOfRows | backend/main.py:97-98 | a link is indexed exactly when every row read has `fields` and one of them holds it |
| Store.FieldlessRowHidesAll | backend/main.py:98 | one row without `fields` empties the index |
| Store.Payload | backend/main.py:104-107 | no request is made exactly when there are no posts |
| Store.PayloadRecovers | backend/main.py:107 | every sent row reads back as the post it was made from, one row per post |
| Store.FirstPage | backend/main.py:94-95 | one read sees at most a page of rows, a prefix of the table, and the whole table when it fits |
| Store.AppendedLinksSeen | backend/main.py:92-107 | while the table fits in one page, after appending posts with non-empty links the index is the old index plus those links |
| Store.AppendedBeyondPage | backend/main.py:94-98 | once the table fills a page, appending leaves the index unchanged |
| Ingestion.UpdateData | backend/main.py:592-623 | an empty channel mapping stops the run before any connector; an append holds at least one post and at most five per target |
| Ingestion.RunAborts | backend/main.py:592-623 | a run with channels ends with nothing stored exactly when the Telegram client cannot start for Telegram channels or the YouTube client cannot be built for YouTube handles; otherwise it appends exactly the connectors' posts, when there are any |
| Ingestion.RunStops | backend/main.py:601-603 | a run stops early exactly when the channel table answers other than 200 |
| Ingestion.Blocks | backend/main.py:606-610 | each connector's block holds only its platform's posts under its platform's site |
| Ingestion.AppendOrder | backend/main.py:617 | the appended posts come platform by platform: Telegram, YouTube, Rutube, VK, Habr |
| Ingestion.AppendFresh | backend/main.py:617-620 | no appended post has a stored or empty permalink |
| Ingestion.RerunFindsNothing | backend/main.py:592-623 | where VK, YouTube and Rutube permalinks identify their items, a run against the stored links plus the appended ones finds nothing new |
| Ingestion.SecondRunAppendsNothing | backend/main.py:592-623 | after a run's posts are stored in a table whose rows all have `fields` and which still fits in one page, the next run appends nothing |
| Ingestion.FullPageRunRepeats | backend/main.py:94-95 | when the table already fills a page, the next run against unchanged platforms appends the same posts again |
| Ordering.Ranking | backend/main.py:947-951 | the stable descending sort lists every position once, larger keys first, equal keys in table order |
| Ordering.RankedDescending | backend/main.py:947-951 | along the ranking positions are distinct and keys do not increase |
| Analytics.MatchingSpec | backend/main.py:768-771 | the source and sentiment filters keep, in table order, exactly the rows passing both |
| Analytics.Data | backend/main.py:753-798 | the total counts the rows passing the filters and never exceeds the table |
| Analytics.DataWindow | backend/main.py:774-795 | a page holds the filtered rows from `offset` on, at most `limit`, each with its position in the id |
| Analytics.DataUnfiltered | backend/main.py:774-795 | without filters a large enough first page holds every row in order |
| Analytics.PagesTile | backend/main.py:775 | two adjacent pages make up the page spanning both |
| Analytics.TopContent | backend/main.py:934-938 | an unknown metric gives the 400 answer; otherwise the metric is the one named |
| Analytics.TopContentSpec | backend/main.py:943-961 | the ranked rows are distinct rows of the source, as many as the slice keeps, numbered from 1, in descending stable order, and every row left out ranks after every row shown |
| Analytics.TopContentDescending | backend/main.py:947-958 | metric values do not increase along the ranking and ranks count up from 1 |
| Breakdown.FoldSums | backend/main.py:820-840 | each tally is the count or sum over the rows; a source's sentiment total counts rows with one of the three sentiments, and twice those whose sentiment is `total` |
| Breakdown.TallyGrouped | backend/main.py:820-840 | grouping gives one group per source named (`Unknown` when missing), in first-seen order, each holding exactly its source's rows |
| Breakdown.TallyConserves | backend/main.py:820-840 | the groups' tallies add up to those of the whole table |
| Breakdown.LeaderSpec | backend/main.py:859 | the leader is `N/A` without groups, otherwise the first group with the largest key |
| Breakdown.OverviewOf | backend/main.py:808-809 | the no-data answer exactly for an empty table |
| Breakdown.OverviewSpec | backend/main.py:801-863 | totals are the rows' sums, groups as promised, the most engaging source has the most likes, and views are the top metric exactly when they exceed likes |
| Breakdown.Dominant | backend/main.py:910 | the dominant sentiment is one of the three with the largest count |
| Breakdown.DominantTies | backend/main.py:910 | a tie goes to the sentiment listed first: Positive, Negative, Neutral |
| Breakdown.SentimentReportOf | backend/main.py:918-919 | the trend is Positive exactly when positive engagement exceeds negative, and Neutral otherwise |
| Breakdown.SentimentReportSpec | backend/main.py:866-921 | sentiment counts and engagement are the rows', the groups are as promised, and a source's `total` counts its rows with one of the three sentiments, twice those with the sentiment `total` |
| Breakdown.SentimentLeader | backend/main.py:916-917 | the most positive source is `N/A` without rows, otherwise one with no fewer positive rows than any other |
| Breakdown.PerformanceOf | backend/main.py:972-1033 | there are no more sources than rows |
| Breakdown.PerformanceSpec | backend/main.py:972-1033 | every source's counts and sums are its rows' and the post counts add up to the table |
| Breakdown.PerformanceLeader | backend/main.py:1030 | the most active source is `N/A` without rows, otherwise one with no fewer rows than any other |
| Assistant.SmartAnswer | backend/main.py:153-223 | the fixed no-records reply exactly for an empty table; the fallback names the title of the brief's most liked record |
| Assistant.BriefMissing | backend/main.py:163-170 | the brief is missing exactly when the first most liked or first most viewed row has no `fields` |
| Assistant.BriefLeaders | backend/main.py:163-170 | the brief names the first most liked and the first most viewed row with their counts |
| Assistant.BriefTotals | backend/main.py:172-173 | the brief's record count and total views equal the overview's |
| Assistant.BriefRecent | backend/main.py:187-190 | the brief lists the last twenty rows, or all when fewer, in table order |
| Assistant.AnswerSpec | backend/main.py:213-223 | the answer is the model's text exactly on 200 with a string content, `None` exactly on 200 with a `null` content, the fallback exactly on another status, and the error text exactly when the service cannot be reached or the content key is missing |
| Assistant.ServiceUnused | backend/main.py:156-170 | without rows or without a brief the service is not consulted |
| Dashboard.DayFirstDate | frontend/src/App.js:63-65 | a year-month-day date is shown day first |
| Dashboard.RevertedDate | frontend/src/App.js:186 | a shown date reads back as year-month-day |
| Dashboard.DayFirstReverts | frontend/src/App.js:63-65 | showing and reading back a stored date gives the stored date |
| Dashboard.DayFirstShort | frontend/src/App.js:64-65 | a two-piece date shows `undefined` for the missing day |
| Dashboard.DefaultDateShown | frontend/src/App.js:53 | a record without a date shows `01-01-2024` |
| Dashboard.ItemOf | frontend/src/App.js:68-79 | title, type, date and sentiment are never empty |
| Dashboard.ItemOfSpec | frontend/src/App.js:52-79 | a record keeps its id and counters; the title, lower-cased type, date and sentiment fall back to their defaults exactly when missing or empty |
| Dashboard.Load | frontend/src/App.js:45 | the dashboard holds at most the first 100 rows |
| Dashboard.LoadSpec | frontend/src/App.js:45-79 | the loaded records are the first rows of the table in order |
| Dashboard.NotifySpec | frontend/src/App.js:83-115 | new records are announced with their number exactly when there are more; no news exactly when unchanged and not zero; the first-load notice never appears |
| Dashboard.Refresh | frontend/src/App.js:116-127 | a failed load empties the records and shows the error notice |
| Dashboard.RefreshSpec | frontend/src/App.js:41-115 | a successful load holds the first rows, at most 100, and notifies by the count comparison; it never shows the error notice |
| Dashboard.VisibleSpec | frontend/src/App.js:168-194 | search, source and date range keep, in order, exactly the records passing every active filter |
| Dashboard.VisibleUnfiltered | frontend/src/App.js:168-194 | with no active filter every record is shown |
| Dashboard.ExportShownSpec | frontend/src/App.js:558 | when the export button is shown only the title search can narrow the table |
| Dashboard.CompareSentimentPreorder | frontend/src/App.js:261-270 | the sorter is antisymmetric, total and transitive, and ties exactly equal ranks |
| Dashboard.ChartInputVisible | frontend/src/App.js:305-316 | filtering the chart's records by the date range again removes nothing |
| Dashboard.BinsSpec | frontend/src/App.js:318-335 | one bin per distinct day, holding that day's count and sums of views, likes and reposts |
| Dashboard.BinsConserve | frontend/src/App.js:318-335 | bin counts add up to the number of records and bin views to their views |
| Dashboard.BinsConserveReactions | frontend/src/App.js:318-335 | bin likes and reposts add up to the records' |
| Dashboard.ChartSpec | frontend/src/App.js:305-341 | with all sources the chart bins the visible records by day and conserves count, views, likes and reposts |
| ChatWindow.Submit | frontend/src/App.js:616-628 | a blank input sends nothing and changes nothing; any other input is sent |
| ChatWindow.BotMessage | frontend/src/App.js:644-660 | the reply is the bot's, and an error exactly when the request failed |
| ChatWindow.SendSpec | frontend/src/App.js:616-665 | a blank input changes nothing; any other adds exactly the user's and the bot's messages, clears the input and ends the wait |
| ChatWindow.BotMessageSpec | frontend/src/App.js:648-659 | the bot says the non-empty answer, the apology for a missing or empty one, or the connection error on failure |
| ChatWindow.SendAlternates | frontend/src/App.js:616-665 | sending keeps question-answer pairs and loses no message |
| ChatWindow.Conversation | frontend/src/App.js:616-665 | any run of sends from an empty window is a run of pairs, one per non-blank input |
| Seqs.PySliceWindow | backend/main.py:775 | a Python slice with non-negative bounds is the run from `start`, cut short by the end |
| Seqs.ArgMax | backend/main.py:163-165 | `max(key=)` picks the first element with the largest key |

## Left out

- Network, SDK and clock calls are parameters, given as what they
  answered. These include the language model, the tables service, the
  Telethon, VK and YouTube clients, the Rutube and Habr HTTP requests, and
  the HTML each Habr article page yields.
- The selection of nodes in Habr HTML by BeautifulSoup is not modelled. A
  page is given as its title, text, date, rating and counter texts.
- Float semantics are replaced by exact decimals truncated toward zero.
  The forms `float` also accepts (`1e3`, `inf`, `nan`, `_` separators) are
  treated as malformed, and so is the `OverflowError` `int(inf)` would
  raise.
- White space is ASCII white space, and lower-casing covers ASCII and the
  Russian alphabet only; other cased letters are left as they are. One
  `Strip` stands for Python's `strip` and JavaScript's `trim`.
- Floating-point figures are left out: averages, percentages, `round`,
  `engagement_rate`, `best_engagement`, `positive_content_ratio`, the
  chart's `engagement * 100`, and the `positive_ratio` behind the
  performance endpoint's `most_positive`, which is not modelled. The
  sentiment endpoint's `most_positive_source` compares positive counts
  and is modelled by `Breakdown.SentimentLeader`.
- Time values are left out:
  - `datetime.fromtimestamp`, `strftime` and `datetime.now` become
    parameters (the VK date is an `Option`);
  - the dashboard's date-range test is a predicate parameter;
  - the chart's sort by date is not modelled, so bins stay in first-seen
    order;
  - the date-column sorter is not modelled;
  - the millisecond-timestamp branch of `fetchData` is not modelled.
- VkConnector.Fetch: the authorization failure that abandons all VK
  communities is not modelled.
- HabrConnector.Fetch: an exception inside one article's processing is
  not modelled; a page that cannot be read is an absent page.
- TelegramConnector.Fetch: a channel that cannot be read is given as no
  messages.
- Assistant.SmartAnswer: the text of the exception message, and the
  wording of the prompt, are not modelled; the brief holds the figures.
  What `/chat` and the bot do with a `None` answer is not modelled:
  `/chat` then fails to build its response.
- Not modelled: FastAPI routing, the Telegram bot's handlers, CSV export,
  the health and info endpoints, and logging.
- Not modelled in the chat window: message ids, timestamps and
  scrolling.
- Store.AppendedLinksSeen: assumes the append request succeeded. A
  failed `add_records` request is logged and swallowed, and the next run
  collects the same posts again.
- ChannelConfig.ResolveChannels: the `pageSize` of 1000 on the channel
  table read is not modelled; every returned row is read.
- ChannelConfig.ResolveChannels: a `null` channel name makes `strip`
  raise, which sends the whole read to the fallback for a raised request.
  The model's absent name stands for a missing one, read as empty; a
  `null` name is not told apart, so this path is not stated.
- Dashboard.ItemOf: only dates stored as text are modelled. The `key`
  fallback with random numbers and the `engagement` column are left out.
- HabrMetric.ParseMetricNumeral: stated for well-formed tokens only.
  ParseMetricNonZero gives the converse shape, and ParseMetricWithoutDigits
  the zero case. The value of a token with a unit letter in the middle,
  such as `1k5`, is not stated.
- YouTubeConnector.FetchIdempotent: needs a permalink to identify its
  video, and other stored links to lie outside YouTube. Without that, an
  item that raised may later be counted as stored.
- VkConnector.FetchIdempotent: needs a permalink to identify its wall
  post, and other stored links to lie outside VK, for the same reason.
- RutubeConnector.FetchIdempotent: needs a permalink to identify its
  video, and other stored links to lie outside Rutube, for the same
  reason.
- RutubeConnector.VideoPost: a `null` view count is stored as given, not
  as 0; the model reads a missing or `null` count as 0.
- Records.FieldsOf: a JSON `null` in a stored column is read as a missing
  column. The source then raises where the model uses a default:
  - a `null` counter makes the analytics sums raise;
  - a `null` counter makes the `max` in `get_smart_answer` raise, which
    gives the error text;
  - a `null` text makes `/api/data` raise on its length, and a `null`
    source prints as `None` in the row id.
- Ingestion.SecondRunAppendsNothing: holds only while the table fits in
  the first page the deduplication read returns. The page size is the
  service's default and is a parameter.
- Enrichment.AnalyzeAnswered: the reply's `sentiment` and `summary` are
  each read as missing or a string. A JSON `null` or a non-string value,
  which `parsed.get` would pass on unchanged, is read as the default
  (`Neutral`, or the empty summary).
- Breakdown.PerformanceOf: states counts and sums, not the rates derived
  from them.
- Analytics.DataWindow: stated for a non-negative offset and limit only.
  Negative ones follow Python's slice rules through `Seqs.PySlice`.
- Dashboard.BinsSpec: the bins are not sorted by date.
- Dashboard.ChartSpec: the bins are not sorted by date, and the
  per-record series drawn for a single source is not stated.
