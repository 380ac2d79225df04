# YouTube analytics pipeline, modelled in Dafny

A model of a small batch ETL pipeline. It reads the channels named in
`YOUTUBE_CHANNEL_IDS` from the YouTube Data API v3, together with the latest videos
of each channel. It flattens them into rows with daily metrics and upserts those
rows into four PostgreSQL tables.

| file | models |
|---|---|
| `Wrappers.dfy` | `Option`, `Result`, `Min`, `Max` |
| `Text.dfy` | Python's `str.split(sep)`, `str.strip()` (the `isspace` set) and `sep.join` |
| `Rows.dfy` | column values (NULL, text, integer, date, list of tags) and records |
| `Resources.dfy` | the API's JSON resources; every field that `.get` may miss is an `Option` |
| `YouTubeApi.dfy` | the `YouTubeAPI` client (etl/src/extract/youtube_api.py) |
| `CleanData.dfy` | `process_channels` and `process_videos` (etl/src/transform/clean_data.py) |
| `LoadSql.dfy` | `DataLoader.load_data` (src/load/load_sql.py) |
| `Pipeline.dfy` | `main()` (etl/src/main.py) |

**The API is a value.** A `Server` gives, for each endpoint, the answer to the
parameters sent, or the `requests` exception raised. The `playlistItems` endpoint is
a finite list of pages per playlist: the k-th request of one pagination run gets
page k, and a request past the last page gets an empty page. Each client call
returns a `Fetch`: its result or exception, and the requests it sent, in order.

**The pagination loop of `get_videos`.** `PageThrough` is the loop, written as a
`while` loop. `Paginate` is the recursive function it is proved against. `Harvest`
is a reference definition with no limit: everything the chain of pages offers.

**The database is a map.** It maps table names to tables. A table maps natural-key
tuples to rows and knows its columns, their defaults and its unique constraint.
`Load` is the effect of one `INSERT … ON CONFLICT` statement. `DataLoader` is a class
holding the database, and its `LoadData` method is proved equal to `Load`.

**The normaliser.** `ProcessChannels` and `ProcessVideos` are the `for` loops of the
normaliser, proved equal to per-item maps.

**A run is a trace.** A run records every API request (`Sent`) and every `load_data`
call (`Loaded`), in order. It ends `Finished` (exit status 0) or `Failed` (exit
status 1). `Main` is the run as a function of the environment, the server, the
database and today's date. `RunPipeline` runs the same steps against a `DataLoader`
object and is proved equal to `Main`.

The run's collaborators form one `Services` value: the two API calls, the two
normalisers and the loader. `Live` plugs in the client, with the corrected detail
fetch `VideoDetails` (see Findings), the normaliser and `Load`. Every ordering, replay
and outcome lemma holds for any `Services`, so it also holds for `Live`.

## Model

| member | source | states |
|---|---|---|
| YouTubeApi.NewClient | etl/src/extract/youtube_api.py:17-26 | the client is built exactly when the API key is non-empty; otherwise the error is the missing-key ValueError |
| YouTubeApi.Call | etl/src/extract/youtube_api.py:28-43 | a request succeeds with the server's data exactly when the server answers; any failure is re-raised, tagged with the endpoint |
| YouTubeApi.GetChannelDetails | etl/src/extract/youtube_api.py:55-67 | no IDs: result `[]` and no request sent; otherwise exactly one `channels` request, carrying the comma-joined IDs, answered with the API's items |
| YouTubeApi.IdListRoundTrip | etl/src/extract/youtube_api.py:59-63 | the `id` parameter of a `channels` or `videos` request, split at commas, gives back exactly the requested IDs in order (IDs without commas) |
| YouTubeApi.VideoIds | etl/src/extract/youtube_api.py:111 | succeeds exactly when every playlist item has a `contentDetails.videoId`, returning them one per item in order; otherwise raises KeyError |
| YouTubeApi.VideoDetails | etl/src/extract/youtube_api.py:124-137 | corrected detail fetch: no IDs gives `[]` and no request; otherwise one `videos` request for the comma-joined IDs |
| YouTubeApi.VideoDetailsAsWritten | etl/src/extract/youtube_api.py:124-137 | as written, no request is ever sent, and the call succeeds exactly when the ID list is empty |
| YouTubeApi.AsWrittenDetailFetchFails | etl/src/extract/youtube_api.py:131-137 | for any non-empty ID list, the code as written raises NameError on `data` and sends nothing; the corrected fetch sends one `videos` request and returns its items |
| YouTubeApi.Prefix | etl/src/extract/youtube_api.py:122 | Python's `videos[:limit]`: the first `limit` elements, or all but the last `-limit` when `limit` is negative |
| YouTubeApi.PaginateCollects | etl/src/extract/youtube_api.py:92-122 | a successful run of the loop returns exactly the first `limit` videos of the page-ordered concatenation of the detail fetches: nothing lost, duplicated or reordered |
| YouTubeApi.PaginateStep | etl/src/extract/youtube_api.py:103-120 | after a non-empty page whose details arrived and whose token is truthy, the loop sends one round and continues from the next page with that page's videos added |
| YouTubeApi.PaginateStops | etl/src/extract/youtube_api.py:92-120 | once the limit is reached the loop sends nothing; on a missing, failing or empty page, or one without a truthy `nextPageToken`, it sends at most that one round |
| YouTubeApi.PaginateFirstRequest | etl/src/extract/youtube_api.py:93-101 | the first page request asks `playlistItems` for this playlist, with `maxResults = min(50, limit - len(videos))` between 1 and 50, and carries `pageToken` only for a truthy token |
| YouTubeApi.PaginateRequests | etl/src/extract/youtube_api.py:92-103 | the loop makes a request exactly when fewer than `limit` videos are collected; every request asks for this playlist and between 1 and 50 items; there is at most one more request than remaining pages |
| YouTubeApi.PaginateTokens | etl/src/extract/youtube_api.py:100-120 | each request after the first sends the `nextPageToken` of the page before it, and follows only a non-empty, fetched page with a truthy token |
| YouTubeApi.ChannelNotFound | etl/src/extract/youtube_api.py:81-84 | for every `limit`, when the channel lookup finds nothing, `get_videos` returns `[]` and sends only the lookup request, so no playlist request |
| YouTubeApi.VideosOfChannel | etl/src/extract/youtube_api.py:69-122 | `get_videos` sends the lookup and then the pagination rounds; a successful result is the first `limit` harvested videos, so never more than `limit`; the first page request has no token |
| YouTubeApi.Paginate | etl/src/extract/youtube_api.py:92-122 | the loop sends a round exactly when fewer than `limit` videos are collected, and a successful result never holds more than a non-negative `limit` videos |
| YouTubeApi.Harvest | etl/src/extract/youtube_api.py:92-120 | a missing, failing or empty page ends the chain with nothing; a page that continues contributes its videos, followed by everything the rest of the chain offers |
| YouTubeApi.Videos | etl/src/extract/youtube_api.py:69-122 | the first request of `get_videos` is always the `channels` lookup for the channel, and a successful result never holds more than a non-negative `limit` videos |
| YouTubeApi.GetVideos | etl/src/extract/youtube_api.py:69-122 | the method returns the result and the request sequence of `Videos` |
| YouTubeApi.PageThrough | etl/src/extract/youtube_api.py:88-122 | the `while` loop returns the result of `Paginate` from page 0 with no token, and its rounds, one per pass in the order sent |
| YouTubeApi.PageRound | etl/src/extract/youtube_api.py:93-120 | one pass of the loop sends the page request for `min(50, limit - len(videos))` with the current token; it either ends the loop with `Paginate`'s result, or continues on the next page with a run whose rounds are the rest of this one |
| YouTubeApi.GetVideoComments | etl/src/extract/youtube_api.py:139-156 | one `commentThreads` request for the video, with `maxResults = min(limit, 100)`; never raises; a failure yields `[]` and a success yields the items |
| Text.Strip | etl/src/main.py:39 | `str.strip()`: a slice of the input with no white space at either end, and everything cut off is white space |
| Text.Split | etl/src/main.py:39 | `str.split(',')`: at least one piece, and no piece contains the separator |
| Text.SplitJoin | etl/src/main.py:39 | splitting a join of separator-free parts gives the parts back |
| Text.JoinSplit | etl/src/main.py:39 | joining the pieces of a split with the separator gives back the string |
| Text.StripFixedPoint | etl/src/main.py:39 | `s.strip() == s` exactly when `s` has no white space at either end |
| Pipeline.KeepStripped | etl/src/main.py:39 | every kept ID is non-empty and stripped, and no more IDs than pieces are kept |
| Pipeline.KeepStrippedMembers | etl/src/main.py:39 | every piece that strips to something non-empty is kept, stripped; every kept ID is a stripped piece |
| Pipeline.KeepStrippedAppend | etl/src/main.py:39 | the IDs kept from two runs of pieces are those kept from each, in order |
| Pipeline.KeepStrippedAll | etl/src/main.py:39 | already clean pieces are all kept unchanged |
| Pipeline.ParseChannelIds | etl/src/main.py:39 | every parsed channel ID is non-empty, has no surrounding white space and contains no comma; every comma-separated piece that is not blank appears, stripped, and every ID comes from such a piece |
| Pipeline.ParseJoin | etl/src/main.py:39 | comma-joining a list of clean IDs and parsing it gives back the list |
| Pipeline.ParseNormalises | etl/src/main.py:39 | parsing is idempotent through comma-joining |
| CleanData.HighThumbnailUrl | etl/src/transform/clean_data.py:31 | a missing `thumbnails` or `thumbnails.high` gives NULL rather than an error; otherwise the high thumbnail's `url` |
| CleanData.ChannelRowOf | etl/src/transform/clean_data.py:21-33 | the row's `channel_id` is the item's `id`; a missing snippet makes every descriptive column NULL; otherwise each column is the snippet field |
| CleanData.ChannelMetricOf | etl/src/transform/clean_data.py:22-42 | the metric row carries the item's `id` and the call's date; a missing count, or missing statistics, gives 0 |
| CleanData.VideoRowOf | etl/src/transform/clean_data.py:62-79 | `video_id` is the item's `id`; with a snippet, `channel_id`, `title`, `description`, `published_at` and `category_id` are its fields and `tags` defaults to `[]`; with content details, `duration` (unparsed), `definition` and `caption` are its fields; missing parts give NULL |
| CleanData.VideoMetricOf | etl/src/transform/clean_data.py:63-88 | the metric row carries the item's `id` and the call's date; missing `viewCount`, `likeCount` or `commentCount` gives 0 |
| CleanData.ChannelRows | etl/src/transform/clean_data.py:20-33 | one channel row per item, in input order |
| CleanData.ChannelMetrics | etl/src/transform/clean_data.py:20-42 | one metric row per item, in input order, all carrying the same date |
| CleanData.VideoRows | etl/src/transform/clean_data.py:61-79 | one video row per item, in input order |
| CleanData.VideoMetrics | etl/src/transform/clean_data.py:61-88 | one metric row per item, in input order, all carrying the same date |
| CleanData.ChannelRowsAgree | etl/src/transform/clean_data.py:18-42 | both outputs have one row per item; the i-th metric row and the i-th channel row both carry item i's `id`, and every metric row carries the call's date |
| CleanData.VideoRowsAgree | etl/src/transform/clean_data.py:59-88 | as for channels, with `video_id`; the row's `channel_id` is the snippet's `channelId`, or NULL without a snippet |
| CleanData.ProcessChannels | etl/src/transform/clean_data.py:5-44 | the loop returns exactly the channel rows and metric rows of the per-item maps |
| CleanData.ProcessVideos | etl/src/transform/clean_data.py:46-90 | the loop returns exactly the video rows and metric rows of the per-item maps |
| CleanData.ChannelRecord | etl/src/transform/clean_data.py:25-33 | the record has exactly the seven `channels` columns, and each column holds its row field (text or NULL) |
| CleanData.ChannelMetricRecord | etl/src/transform/clean_data.py:36-42 | the record has exactly the five `channel_daily_metrics` columns: `channel_id`, `date` and the three counts as integers |
| CleanData.VideoRecord | etl/src/transform/clean_data.py:67-79 | the record has exactly the eleven `videos` columns, and each column holds its row field (text, NULL or the tags list) |
| CleanData.VideoMetricRecord | etl/src/transform/clean_data.py:82-88 | the record has exactly the five `video_daily_metrics` columns: `video_id`, `date` and the three counts as integers |
| CleanData.ChannelLoadRecords | etl/src/transform/clean_data.py:21-42 | what reaches the loader for one channel item: `channel_id` is its `id`; without a snippet every other `channels` column is NULL; a missing statistic, or missing statistics, is the integer 0 |
| CleanData.VideoLoadRecords | etl/src/transform/clean_data.py:62-88 | what reaches the loader for one video item: without a snippet its columns are NULL and `tags` is `[]`; missing `tags` is `[]`; without content details `duration`, `definition` and `caption` are NULL; a missing statistic is the integer 0 |
| CleanData.ChannelRecords | etl/src/transform/clean_data.py:44 | the channel frame has one record per row, in order |
| CleanData.ChannelMetricRecords | etl/src/transform/clean_data.py:44 | the channel-metric frame has one record per row, in order |
| CleanData.VideoRecords | etl/src/transform/clean_data.py:90 | the video frame has one record per row, in order |
| CleanData.VideoMetricRecords | etl/src/transform/clean_data.py:90 | the video-metric frame has one record per row, in order |
| LoadSql.Project | src/load/load_sql.py:78-89 | a key tuple has one value per key column, in order: the record's value or NULL |
| LoadSql.Proposed | src/load/load_sql.py:58-78 | the proposed row has exactly the table's columns: the record's value where given, else the column default |
| LoadSql.KeySet | src/load/load_sql.py:78 | the set holds the key of every batch record, and only those keys |
| LoadSql.UpdateColumns | src/load/load_sql.py:82 | a column is updated exactly when it is a table column, not a unique key and not `created_at` |
| LoadSql.Merge | src/load/load_sql.py:88-91 | a conflicting row keeps its columns; update columns take the new value; every other column keeps the stored value |
| LoadSql.Load | src/load/load_sql.py:53-98 | an empty frame returns 0 and changes nothing; an unknown table fails and nothing is written; any failure leaves the database unchanged; other tables and the schema are never touched |
| LoadSql.DataLoader.LoadData | src/load/load_sql.py:36-98 | the method's result and the loader's new database are those of `Load` on the old database |
| LoadSql.DataLoader.constructor | src/load/load_sql.py:14-34 | the loader starts on the given database |
| LoadSql.UpsertAll | src/load/load_sql.py:88-91 | DO UPDATE never drops a stored key |
| LoadSql.InsertAbsent | src/load/load_sql.py:84-86 | DO NOTHING never drops a stored key and reports at most one added row per batch record |
| LoadSql.UpsertAllKeys | src/load/load_sql.py:88-91 | after DO UPDATE the table's keys are the old keys plus the batch's keys |
| LoadSql.UpsertAllOthers | src/load/load_sql.py:78-91 | DO UPDATE leaves a stored row whose key is not in the batch unchanged |
| LoadSql.UpsertAllAt | src/load/load_sql.py:88-91 | with distinct keys, after DO UPDATE each batch record's key holds its proposed row, merged into the stored row when that key existed |
| LoadSql.InsertAbsentKeys | src/load/load_sql.py:84-86 | after DO NOTHING the table's keys are the old keys plus the batch's keys |
| LoadSql.InsertAbsentCount | src/load/load_sql.py:84-86 | DO NOTHING reports exactly the number of rows it added |
| LoadSql.InsertAbsentKeeps | src/load/load_sql.py:84-86 | DO NOTHING leaves every stored row unchanged |
| LoadSql.InsertAbsentFirst | src/load/load_sql.py:84-86 | the first batch record with a new key is inserted as proposed |
| LoadSql.InsertAbsentNone | src/load/load_sql.py:84-86 | a batch whose keys are all stored inserts nothing and reports 0 |
| LoadSql.MergeKeepsKey | src/load/load_sql.py:82-91 | merging with update columns that exclude the key columns keeps the row's key |
| LoadSql.UpsertAllOk | src/load/load_sql.py:88-91 | DO UPDATE keeps every row filed under its own key and with exactly the table's columns |
| LoadSql.InsertAbsentOk | src/load/load_sql.py:84-86 | DO NOTHING keeps every row filed under its own key and with exactly the table's columns |
| LoadSql.UpdateSkipsKeys | src/load/load_sql.py:82 | when `unique_keys` name the constraint, no key column is ever updated |
| LoadSql.LoadKeepsWellFormed | src/load/load_sql.py:78-98 | a load keeps a well-formed table well-formed |
| LoadSql.LoadKeys | src/load/load_sql.py:78-91 | after a successful load of a non-empty frame the table gains exactly the batch's new keys and loses none |
| LoadSql.LoadLeavesOthers | src/load/load_sql.py:78-91 | a stored row whose key the batch does not propose is unchanged |
| LoadSql.LoadDoNothing | src/load/load_sql.py:84-86 | with nothing to update, every stored row is left unchanged, and the count is the number of rows added |
| LoadSql.LoadDoUpdate | src/load/load_sql.py:82-91 | DO UPDATE counts every record; a new key is inserted as proposed; an existing key keeps its unique-key and `created_at` columns and takes the new value in every other column |
| LoadSql.MergeTwice | src/load/load_sql.py:88-91 | merging the same proposal twice equals merging it once |
| LoadSql.MergeSelf | src/load/load_sql.py:88-91 | merging a row into itself leaves it unchanged |
| LoadSql.UpsertAllTwiceAt | src/load/load_sql.py:78-91 | a second DO UPDATE of the same batch gives each key the row it had after the first |
| LoadSql.UpsertAllTwice | src/load/load_sql.py:78-91 | DO UPDATE of a batch with distinct keys is idempotent |
| LoadSql.LoadIdempotent | src/load/load_sql.py:53-98 | loading the same batch into the same table a second time leaves the database as the first load did |
| Pipeline.SentAll | etl/src/main.py:48-66 | the trace of the requests of a call: one `Sent` event per request, in order |
| Pipeline.ExitCode | etl/src/main.py:82-84 | the exit status is 1 exactly when the run failed and 0 otherwise |
| Pipeline.Live | etl/src/main.py:43-78 | every channel fetch returns at most 50 videos, and each normaliser frame has one record per item |
| Pipeline.LoadStep | etl/src/main.py:58-78 | a `load_data` call appends exactly its `Loaded` event; the run fails exactly when the loader raises, and the database is the one the loader leaves |
| Pipeline.ChannelLoads | etl/src/main.py:58-59 | the two channel loads either go on or fail; a `channels` load that raises fails the run right after it, before `channel_daily_metrics` |
| Pipeline.Step | etl/src/main.py:62-78 | one pass of the per-channel loop either goes on or fails; a raising `get_videos` fails it and a channel with no videos goes on, both with the database unchanged |
| Pipeline.VideoPhase | etl/src/main.py:62-80 | a run that has stopped is left as it is; otherwise the loop ends running or failed |
| Pipeline.Extract | etl/src/main.py:48-80 | a failed lookup fails the run, and an empty lookup finishes it, in both cases after only the lookup's requests and with the database unchanged |
| Pipeline.Main | etl/src/main.py:23-84 | an unset channel variable ends the run with no event; a missing API key or database credentials fail it before any call; no parsed ID finishes it with no event; every run finishes or fails |
| Pipeline.MainExit | etl/src/main.py:82-84 | the exit status is 1 exactly when the run failed, 0 exactly when it finished |
| Pipeline.RunPipeline | etl/src/main.py:23-84 | the imperative run over a `DataLoader` produces the trace and status of `Main`, and leaves the loader on `Main`'s database |
| Pipeline.ExtractRun | etl/src/main.py:48-80 | the run after the client and loader exist matches `Extract` |
| Pipeline.ChannelsRun | etl/src/main.py:53-59 | the two channel loads over the loader match `ChannelLoads` |
| Pipeline.ChannelLoop | etl/src/main.py:62-80 | the `for` loop with `continue` matches `VideoPhase`, with a run that does not fail marked finished |
| Pipeline.ChannelStep | etl/src/main.py:63-78 | one pass of the loop over the loader matches `Step` |
| Pipeline.LoadTables | etl/src/main.py:58-78 | the tables of the loader calls in a trace, one per `Loaded` event, in order |
| Pipeline.LoadTablesAppend | etl/src/main.py:58-78 | the loaded tables of two consecutive traces are the two lists joined |
| Pipeline.LoadTablesSent | etl/src/main.py:48-66 | a trace of requests loads no table |
| Pipeline.PairsCons | etl/src/main.py:77-78 | a video pair before complete pairs gives complete pairs |
| Pipeline.AddedChain | etl/src/main.py:62-78 | what a run adds through an intermediate state is what the two stretches add, joined |
| Pipeline.StepLoads | etl/src/main.py:66-78 | one channel loads nothing, or `videos` and then fails, or `videos` and then `video_daily_metrics`; a channel with no videos loads nothing and changes nothing |
| Pipeline.ShapeJoin | etl/src/main.py:62-78 | one channel's loads followed by later channels' loads keep the pair shape |
| Pipeline.VideoPhaseLoads | etl/src/main.py:62-78 | the loop's loads are `videos, video_daily_metrics` pairs; only a failed run ends with a lone `videos` |
| Pipeline.ExtractStart | etl/src/main.py:48-59 | an empty or failed lookup loads nothing; otherwise `channels` is loaded first and, if that succeeds, `channel_daily_metrics` second, before the loop starts |
| Pipeline.ExtractLoads | etl/src/main.py:48-80 | a run's loads are nothing, or a failed `channels`, or `channels, channel_daily_metrics` followed by video pairs; a finished run completes every pair |
| Pipeline.OrderOfShape | etl/src/main.py:58-78 | that load shape puts the channel tables first and, in a finished run, follows every `videos` with `video_daily_metrics` |
| Pipeline.MainLoads | etl/src/main.py:58-78 | by table name: every `videos` or `video_daily_metrics` load comes after the `channels` and `channel_daily_metrics` loads, and in a finished run each `videos` load is directly followed by a `video_daily_metrics` load (that both belong to one channel is `StepLoads`) |
| Pipeline.PairsShape | etl/src/main.py:77-78 | inside the video loads, every entry is a video table, and a `videos` followed by anything is followed by `video_daily_metrics` |
| Pipeline.PairsAt | etl/src/main.py:77-78 | in complete pairs, even positions are `videos` and odd ones `video_daily_metrics` |
| Pipeline.StepKeys | etl/src/main.py:77-78 | the loop's loads use `["video_id"]` and `["video_id", "date"]` |
| Pipeline.VideoPhaseKeys | etl/src/main.py:62-78 | every load of the loop uses its table's natural key |
| Pipeline.ExtractKeys | etl/src/main.py:58-78 | every load after the lookup uses its table's natural key |
| Pipeline.MainKeys | etl/src/main.py:58-78 | every load of a run targets one of the four tables with its natural key: `["channel_id"]`, `["channel_id", "date"]`, `["video_id"]`, `["video_id", "date"]` |
| Pipeline.NoChannelsNoLoads | etl/src/main.py:48-51 | when the lookup finds no channel, the run finishes after at most one request, with no load and the database unchanged |
| Pipeline.SkipChannel | etl/src/main.py:68-70 | a channel without videos adds only its requests, leaves the database alone, and the loop goes on with the next channel |
| Pipeline.ReplayAppend | etl/src/main.py:58-78 | replaying two consecutive traces equals replaying the first and then the second |
| Pipeline.ReplaySent | etl/src/main.py:48-66 | requests do not change the database |
| Pipeline.ReplayLoadStep | etl/src/main.py:58-78 | a load changes the database exactly as replaying its event does |
| Pipeline.ReplaysSelf | etl/src/main.py:62-78 | an empty stretch of trace replays to the same database |
| Pipeline.ReplayChain | etl/src/main.py:62-78 | replay composes across consecutive stretches of a trace |
| Pipeline.StepReplay | etl/src/main.py:62-78 | one pass of the loop changes the database exactly as replaying the events it adds |
| Pipeline.VideoPhaseReplay | etl/src/main.py:62-78 | the loop changes the database exactly as replaying the events it adds |
| Pipeline.ExtractReplay | etl/src/main.py:48-80 | a run changes the database exactly as replaying its trace |
| Pipeline.MainReplay | etl/src/main.py:23-84 | the database a run leaves is the one its recorded `load_data` calls produce, in order, from the starting database |
| Pipeline.LoadsOkAppend | etl/src/main.py:58-78 | every loader call of two consecutive traces succeeds exactly when those of the first do and, from the database they leave, those of the second do |
| Pipeline.LoadsOkSent | etl/src/main.py:48-66 | a trace of requests holds no failing loader call |
| Pipeline.LoadsOkChain | etl/src/main.py:62-78 | the loader calls from one state to a later one all succeed exactly when those of each stretch do |
| Pipeline.LoadStepOutcome | etl/src/main.py:58-78 | a load step goes on exactly when its loader call succeeds |
| Pipeline.StepOutcome | etl/src/main.py:62-78 | one pass of the loop goes on exactly when `get_videos` succeeded and every loader call it made succeeded |
| Pipeline.AllFetchedAt | etl/src/main.py:62-66 | the recursive "every remaining fetch succeeds" is the quantified statement |
| Pipeline.VideoPhaseOutcome | etl/src/main.py:62-78 | the loop ends without failing exactly when every remaining `get_videos` call succeeds and every loader call it made succeeds |
| Pipeline.ChannelLoadsOutcome | etl/src/main.py:58-59 | the channel loads go on exactly when both loader calls succeed |
| Pipeline.ExtractOutcome | etl/src/main.py:48-84 | a run after the lookup finishes exactly when the lookup succeeds, every channel's `get_videos` succeeds when some channel was found, and every recorded loader call succeeds |
| Pipeline.LiveOutcome | etl/src/main.py:48-84 | with the live client, normaliser and loader, a run after the lookup finishes exactly when the lookup succeeds, every `get_videos(channel_id, limit=50)` succeeds when a channel was found, and every `Load` it recorded succeeds |
| Pipeline.MainOutcome | etl/src/main.py:23-84 | `main()` exits 0 exactly when the channel variable is unset, or the key and database are there, the lookup succeeds, every `get_videos` succeeds when a channel was found, and every `load_data` call succeeds; exit 1 is any other case |

## Left out

- HTTP transport, JSON decoding and the `key` query parameter that `_make_request` adds (etl/src/extract/youtube_api.py:28-43). The `Server` value stands in for them. Both transport and status failures become one `RequestFailed` error.
- The error path of `_make_request` reads `response` after `requests.get` itself raised, which would be an UnboundLocalError replacing the original exception. The model re-raises the request failure, since both end the run the same way.
- Each playlist has finitely many pages. `get_videos` against a server that keeps returning non-empty pages with fresh tokens is not modelled.
- Statistics are natural numbers already. `int()` of a non-numeric string would raise in Python, and that is not modelled.
- pandas is not modelled. A frame is its list of records (`to_dict('records')`), and every record carries all the normaliser's columns. `df.empty` holds when every record is empty. A column the frame leaves out takes the table's column default.
- `datetime.now().date()` is the `date` parameter, which one call shares for all its rows.
- Environment and dotenv reading and logging are not modelled. `YOUTUBE_CHANNEL_IDS` and `YOUTUBE_API_KEY` are parameters (an unset variable is `""`).
- DataLoader engine construction is not modelled (src/load/load_sql.py:14-34). The `dbReady` flag says whether the database credentials are set. `RunPipeline` receives an already constructed loader.
- SQLAlchemy reflection, transactions, commit, concurrency and driver details are not modelled. `rowcount` is PostgreSQL's count: every row for DO UPDATE, the inserted rows for DO NOTHING. A failed statement writes nothing.
- NULL key values are compared as values in the key tuple. PostgreSQL's rule that NULLs never conflict is not modelled.
- `LoadSql.Load`: checks what the statement would reject in a fixed order: unknown table, unknown column, no matching unique constraint on `unique_keys`, and a key repeated within one DO UPDATE batch. PostgreSQL's own error messages are not modelled.
- etl/scripts/init_db.py, etl/scripts/verify_data.py and scripts/test_connection.py are not part of this model. The difference between the table names in `main()` and the `youtube_*` tables those scripts create is a schema question outside it.
- `get_video_comments` is modelled, but `main()` never calls it, so no run sends a comment request. No duration parsing exists in the source, so none is modelled.
- `Paginate`, `Videos` and `VideoPhase` state only bounds and simple cases in their own `ensures`, and `Replay` has none. Their main properties are the lemmas listed above: `PaginateCollects` and `VideosOfChannel` for the first two, `VideoPhaseLoads` and `VideoPhaseOutcome` for the loop, and `ReplayAppend`, `ReplaySent` and `MainReplay` for `Replay`.
- Pipeline.Live: uses the corrected detail fetch `VideoDetails`. As written, `_get_video_statistics` raises NameError on every non-empty page (etl/src/extract/youtube_api.py:131-137), so a run with any channel that has uploads fails; the lemmas about `Live` describe the intended pipeline, and `AsWrittenDetailFetchFails` states the as-written behaviour.
- LoadSql.LoadIdempotent: treats each column default as a constant. A volatile default such as `now()` or `nextval`, on a column the frame leaves out and the update sets, would change on every reload, and the model does not capture that.

## Findings

| source | as written | input that shows it | evidently intended | confidence | as-written member | corrected member |
|---|---|---|---|---|---|---|
| etl/src/extract/youtube_api.py:131-137 | `_get_video_statistics` builds the request parameters but never calls `_make_request`, and then returns `data.get("items", [])` with `data` never assigned | any playlist page with at least one video ID, e.g. IDs `["v1"]`: NameError, so `get_videos` (and the run) fails on every channel with uploads | one `videos` request for the comma-joined IDs, answered with its `items` | not executed; high | YouTubeApi.VideoDetailsAsWritten, YouTubeApi.AsWrittenDetailFetchFails | YouTubeApi.VideoDetails |
