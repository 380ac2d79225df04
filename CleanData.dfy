/** The record normaliser (etl/src/transform/clean_data.py): each channel or video
    resource becomes one descriptive row and one metric row. Missing nested fields
    become None (SQL NULL), missing statistics become 0, and every metric row of one
    call carries the same date, which is passed in instead of read from the clock. */
module CleanData {
  import opened Wrappers
  import opened Rows
  import opened Resources

  datatype ChannelRow = ChannelRow(
    channelId: Option<string>,
    title: Option<string>,
    description: Option<string>,
    customUrl: Option<string>,
    publishedAt: Option<string>,
    thumbnailUrl: Option<string>,
    country: Option<string>)

  datatype ChannelMetricRow = ChannelMetricRow(
    channelId: Option<string>,
    date: Date,
    viewCount: nat,
    subscriberCount: nat,
    videoCount: nat)

  datatype VideoRow = VideoRow(
    videoId: Option<string>,
    channelId: Option<string>,
    title: Option<string>,
    description: Option<string>,
    publishedAt: Option<string>,
    thumbnailUrl: Option<string>,
    tags: seq<string>,
    categoryId: Option<string>,
    duration: Option<string>,
    definition: Option<string>,
    caption: Option<string>)

  datatype VideoMetricRow = VideoMetricRow(
    videoId: Option<string>,
    date: Date,
    viewCount: nat,
    likeCount: nat,
    commentCount: nat)

  /** `snippet.get("thumbnails", {}).get("high", {}).get("url")` */
  function HighThumbnailUrl(thumbnails: Option<Thumbnails>): (url: Option<string>)
    ensures thumbnails.None? ==> url.None?
    ensures thumbnails.Some? && thumbnails.value.high.None? ==> url.None?
    ensures thumbnails.Some? && thumbnails.value.high.Some? ==> url == thumbnails.value.high.value.url
  {
    match thumbnails
    case None => None
    case Some(t) =>
      match t.high
      case None => None
      case Some(h) => h.url
  }

  /** The `channels` row of one channel resource. */
  function ChannelRowOf(item: Channel): (r: ChannelRow)
    ensures r.channelId == item.id
    ensures item.snippet.None? ==>
      r == ChannelRow(item.id, None, None, None, None, None, None)
    ensures item.snippet.Some? ==>
      && r.title == item.snippet.value.title
      && r.description == item.snippet.value.description
      && r.customUrl == item.snippet.value.customUrl
      && r.publishedAt == item.snippet.value.publishedAt
      && r.thumbnailUrl == HighThumbnailUrl(item.snippet.value.thumbnails)
      && r.country == item.snippet.value.country
  {
    match item.snippet
    case None => ChannelRow(item.id, None, None, None, None, None, None)
    case Some(s) =>
      ChannelRow(item.id, s.title, s.description, s.customUrl, s.publishedAt,
                 HighThumbnailUrl(s.thumbnails), s.country)
  }

  /** The `channel_daily_metrics` row of one channel resource on `date`. */
  function ChannelMetricOf(item: Channel, date: Date): (m: ChannelMetricRow)
    ensures m.channelId == item.id && m.date == date
    ensures item.statistics.None? ==> m.viewCount == 0 && m.subscriberCount == 0 && m.videoCount == 0
    ensures item.statistics.Some? ==>
      && m.viewCount == item.statistics.value.viewCount.GetOr(0)
      && m.subscriberCount == item.statistics.value.subscriberCount.GetOr(0)
      && m.videoCount == item.statistics.value.videoCount.GetOr(0)
  {
    match item.statistics
    case None => ChannelMetricRow(item.id, date, 0, 0, 0)
    case Some(s) =>
      ChannelMetricRow(item.id, date, s.viewCount.GetOr(0), s.subscriberCount.GetOr(0), s.videoCount.GetOr(0))
  }

  /** The `videos` row of one video resource. */
  function VideoRowOf(item: Video): (r: VideoRow)
    ensures r.videoId == item.id
    ensures item.snippet.None? ==>
      && r.channelId.None? && r.title.None? && r.description.None? && r.publishedAt.None?
      && r.thumbnailUrl.None? && r.tags == [] && r.categoryId.None?
    ensures item.snippet.Some? ==>
      && r.channelId == item.snippet.value.channelId
      && r.title == item.snippet.value.title
      && r.description == item.snippet.value.description
      && r.publishedAt == item.snippet.value.publishedAt
      && r.thumbnailUrl == HighThumbnailUrl(item.snippet.value.thumbnails)
      && r.tags == item.snippet.value.tags.GetOr([])
      && r.categoryId == item.snippet.value.categoryId
    ensures item.contentDetails.None? ==> r.duration.None? && r.definition.None? && r.caption.None?
    ensures item.contentDetails.Some? ==>
      && r.duration == item.contentDetails.value.duration
      && r.definition == item.contentDetails.value.definition
      && r.caption == item.contentDetails.value.caption
  {
    var details := item.contentDetails;
    var duration := if details.Some? then details.value.duration else None;
    var definition := if details.Some? then details.value.definition else None;
    var caption := if details.Some? then details.value.caption else None;
    match item.snippet
    case None => VideoRow(item.id, None, None, None, None, None, [], None, duration, definition, caption)
    case Some(s) =>
      VideoRow(item.id, s.channelId, s.title, s.description, s.publishedAt,
               HighThumbnailUrl(s.thumbnails), s.tags.GetOr([]), s.categoryId, duration, definition, caption)
  }

  /** The `video_daily_metrics` row of one video resource on `date`. */
  function VideoMetricOf(item: Video, date: Date): (m: VideoMetricRow)
    ensures m.videoId == item.id && m.date == date
    ensures item.statistics.None? ==> m.viewCount == 0 && m.likeCount == 0 && m.commentCount == 0
    ensures item.statistics.Some? ==>
      && m.viewCount == item.statistics.value.viewCount.GetOr(0)
      && m.likeCount == item.statistics.value.likeCount.GetOr(0)
      && m.commentCount == item.statistics.value.commentCount.GetOr(0)
  {
    match item.statistics
    case None => VideoMetricRow(item.id, date, 0, 0, 0)
    case Some(s) =>
      VideoMetricRow(item.id, date, s.viewCount.GetOr(0), s.likeCount.GetOr(0), s.commentCount.GetOr(0))
  }

  /** The channel rows of `process_channels`: one per item, in input order. */
  function ChannelRows(items: seq<Channel>): (rows: seq<ChannelRow>)
    ensures |rows| == |items|
    ensures forall i :: 0 <= i < |items| ==> rows[i] == ChannelRowOf(items[i])
  {
    if items == [] then [] else [ChannelRowOf(items[0])] + ChannelRows(items[1..])
  }

  /** The metric rows of `process_channels`: one per item, in input order. */
  function ChannelMetrics(items: seq<Channel>, date: Date): (rows: seq<ChannelMetricRow>)
    ensures |rows| == |items|
    ensures forall i :: 0 <= i < |items| ==> rows[i] == ChannelMetricOf(items[i], date)
  {
    if items == [] then [] else [ChannelMetricOf(items[0], date)] + ChannelMetrics(items[1..], date)
  }

  /** The video rows of `process_videos`: one per item, in input order. */
  function VideoRows(items: seq<Video>): (rows: seq<VideoRow>)
    ensures |rows| == |items|
    ensures forall i :: 0 <= i < |items| ==> rows[i] == VideoRowOf(items[i])
  {
    if items == [] then [] else [VideoRowOf(items[0])] + VideoRows(items[1..])
  }

  /** The metric rows of `process_videos`: one per item, in input order. */
  function VideoMetrics(items: seq<Video>, date: Date): (rows: seq<VideoMetricRow>)
    ensures |rows| == |items|
    ensures forall i :: 0 <= i < |items| ==> rows[i] == VideoMetricOf(items[i], date)
  {
    if items == [] then [] else [VideoMetricOf(items[0], date)] + VideoMetrics(items[1..], date)
  }

  /** The two outputs of `process_channels` line up: the i-th channel row and the i-th
      metric row describe the i-th item, under its `id`, and all metric rows carry
      the one date of the call. */
  lemma {:induction false} ChannelRowsAgree(items: seq<Channel>, date: Date)
    ensures |ChannelRows(items)| == |ChannelMetrics(items, date)| == |items|
    ensures forall i :: 0 <= i < |items| ==>
      && ChannelMetrics(items, date)[i].channelId == ChannelRows(items)[i].channelId == items[i].id
      && ChannelMetrics(items, date)[i].date == date
  {
  }

  /** The two outputs of `process_videos` line up: the i-th video row and the i-th
      metric row describe the i-th item, under its `id`; the row's channel is the
      snippet's `channelId`; all metric rows carry the one date of the call. */
  lemma {:induction false} VideoRowsAgree(items: seq<Video>, date: Date)
    ensures |VideoRows(items)| == |VideoMetrics(items, date)| == |items|
    ensures forall i :: 0 <= i < |items| ==>
      && VideoMetrics(items, date)[i].videoId == VideoRows(items)[i].videoId == items[i].id
      && VideoMetrics(items, date)[i].date == date
      && VideoRows(items)[i].channelId == (if items[i].snippet.Some? then items[i].snippet.value.channelId else None)
  {
  }

  /** `process_channels(raw_items)`: the loop that appends one channel row and one
      metric row per item. */
  method ProcessChannels(items: seq<Channel>, date: Date) returns (channels: seq<ChannelRow>, metrics: seq<ChannelMetricRow>)
    ensures channels == ChannelRows(items)
    ensures metrics == ChannelMetrics(items, date)
  {
    channels, metrics := [], [];
    for i := 0 to |items|
      invariant |channels| == |metrics| == i
      invariant forall j :: 0 <= j < i ==> channels[j] == ChannelRowOf(items[j])
      invariant forall j :: 0 <= j < i ==> metrics[j] == ChannelMetricOf(items[j], date)
    {
      channels := channels + [ChannelRowOf(items[i])];
      metrics := metrics + [ChannelMetricOf(items[i], date)];
    }
  }

  /** `process_videos(raw_items)`: the loop that appends one video row and one metric
      row per item. */
  method ProcessVideos(items: seq<Video>, date: Date) returns (videos: seq<VideoRow>, metrics: seq<VideoMetricRow>)
    ensures videos == VideoRows(items)
    ensures metrics == VideoMetrics(items, date)
  {
    videos, metrics := [], [];
    for i := 0 to |items|
      invariant |videos| == |metrics| == i
      invariant forall j :: 0 <= j < i ==> videos[j] == VideoRowOf(items[j])
      invariant forall j :: 0 <= j < i ==> metrics[j] == VideoMetricOf(items[j], date)
    {
      videos := videos + [VideoRowOf(items[i])];
      metrics := metrics + [VideoMetricOf(items[i], date)];
    }
  }

  // The DataFrame columns, as the loader receives them.

  function ChannelRecord(r: ChannelRow): (rec: Record)
    ensures rec.Keys == {"channel_id", "title", "description", "custom_url", "published_at", "thumbnail_url", "country"}
    ensures rec["channel_id"] == OptText(r.channelId) && rec["title"] == OptText(r.title)
    ensures rec["description"] == OptText(r.description) && rec["custom_url"] == OptText(r.customUrl)
    ensures rec["published_at"] == OptText(r.publishedAt) && rec["thumbnail_url"] == OptText(r.thumbnailUrl)
    ensures rec["country"] == OptText(r.country)
  {
    map["channel_id" := OptText(r.channelId), "title" := OptText(r.title),
        "description" := OptText(r.description), "custom_url" := OptText(r.customUrl),
        "published_at" := OptText(r.publishedAt), "thumbnail_url" := OptText(r.thumbnailUrl),
        "country" := OptText(r.country)]
  }

  function ChannelMetricRecord(m: ChannelMetricRow): (rec: Record)
    ensures rec.Keys == {"channel_id", "date", "view_count", "subscriber_count", "video_count"}
    ensures rec["channel_id"] == OptText(m.channelId) && rec["date"] == Day(m.date)
    ensures rec["view_count"] == Int(m.viewCount) && rec["subscriber_count"] == Int(m.subscriberCount)
    ensures rec["video_count"] == Int(m.videoCount)
  {
    map["channel_id" := OptText(m.channelId), "date" := Day(m.date),
        "view_count" := Int(m.viewCount), "subscriber_count" := Int(m.subscriberCount),
        "video_count" := Int(m.videoCount)]
  }

  function VideoRecord(r: VideoRow): (rec: Record)
    ensures rec.Keys == {"video_id", "channel_id", "title", "description", "published_at", "thumbnail_url",
                         "tags", "category_id", "duration", "definition", "caption"}
    ensures rec["video_id"] == OptText(r.videoId) && rec["channel_id"] == OptText(r.channelId)
    ensures rec["title"] == OptText(r.title) && rec["description"] == OptText(r.description)
    ensures rec["published_at"] == OptText(r.publishedAt) && rec["thumbnail_url"] == OptText(r.thumbnailUrl)
    ensures rec["tags"] == TextList(r.tags) && rec["category_id"] == OptText(r.categoryId)
    ensures rec["duration"] == OptText(r.duration) && rec["definition"] == OptText(r.definition)
    ensures rec["caption"] == OptText(r.caption)
  {
    map["video_id" := OptText(r.videoId), "channel_id" := OptText(r.channelId),
        "title" := OptText(r.title), "description" := OptText(r.description),
        "published_at" := OptText(r.publishedAt), "thumbnail_url" := OptText(r.thumbnailUrl),
        "tags" := TextList(r.tags), "category_id" := OptText(r.categoryId),
        "duration" := OptText(r.duration), "definition" := OptText(r.definition),
        "caption" := OptText(r.caption)]
  }

  function VideoMetricRecord(m: VideoMetricRow): (rec: Record)
    ensures rec.Keys == {"video_id", "date", "view_count", "like_count", "comment_count"}
    ensures rec["video_id"] == OptText(m.videoId) && rec["date"] == Day(m.date)
    ensures rec["view_count"] == Int(m.viewCount) && rec["like_count"] == Int(m.likeCount)
    ensures rec["comment_count"] == Int(m.commentCount)
  {
    map["video_id" := OptText(m.videoId), "date" := Day(m.date),
        "view_count" := Int(m.viewCount), "like_count" := Int(m.likeCount),
        "comment_count" := Int(m.commentCount)]
  }

  /** What the loader receives for one channel resource: the statistics the API left
      out arrive as 0, not NULL, and a channel without a snippet arrives with every
      descriptive column NULL but its id. */
  lemma ChannelLoadRecords(item: Channel, date: Date)
    ensures ChannelRecord(ChannelRowOf(item))["channel_id"] == OptText(item.id)
    ensures item.snippet.None? ==>
      forall c :: c in ChannelRecord(ChannelRowOf(item)) && c != "channel_id" ==> ChannelRecord(ChannelRowOf(item))[c] == Null
    ensures item.statistics.None? ==>
      var rec := ChannelMetricRecord(ChannelMetricOf(item, date));
      rec["view_count"] == rec["subscriber_count"] == rec["video_count"] == Int(0)
    ensures item.statistics.Some? && item.statistics.value.viewCount.None? ==>
      ChannelMetricRecord(ChannelMetricOf(item, date))["view_count"] == Int(0)
    ensures item.statistics.Some? && item.statistics.value.subscriberCount.None? ==>
      ChannelMetricRecord(ChannelMetricOf(item, date))["subscriber_count"] == Int(0)
    ensures item.statistics.Some? && item.statistics.value.videoCount.None? ==>
      ChannelMetricRecord(ChannelMetricOf(item, date))["video_count"] == Int(0)
  {
  }

  /** What the loader receives for one video resource: missing statistics arrive as 0,
      missing tags as the empty list, and a video without a snippet or without content
      details arrives with those columns NULL. */
  lemma VideoLoadRecords(item: Video, date: Date)
    ensures VideoRecord(VideoRowOf(item))["video_id"] == OptText(item.id)
    ensures item.snippet.None? ==>
      var rec := VideoRecord(VideoRowOf(item));
      && rec["channel_id"] == rec["title"] == rec["description"] == rec["published_at"] == Null
      && rec["thumbnail_url"] == rec["category_id"] == Null
      && rec["tags"] == TextList([])
    ensures item.snippet.Some? && item.snippet.value.tags.None? ==> VideoRecord(VideoRowOf(item))["tags"] == TextList([])
    ensures item.contentDetails.None? ==>
      var rec := VideoRecord(VideoRowOf(item));
      rec["duration"] == rec["definition"] == rec["caption"] == Null
    ensures item.statistics.None? ==>
      var rec := VideoMetricRecord(VideoMetricOf(item, date));
      rec["view_count"] == rec["like_count"] == rec["comment_count"] == Int(0)
    ensures item.statistics.Some? && item.statistics.value.viewCount.None? ==>
      VideoMetricRecord(VideoMetricOf(item, date))["view_count"] == Int(0)
    ensures item.statistics.Some? && item.statistics.value.likeCount.None? ==>
      VideoMetricRecord(VideoMetricOf(item, date))["like_count"] == Int(0)
    ensures item.statistics.Some? && item.statistics.value.commentCount.None? ==>
      VideoMetricRecord(VideoMetricOf(item, date))["comment_count"] == Int(0)
  {
  }

  function ChannelRecords(rows: seq<ChannelRow>): (recs: seq<Record>)
    ensures |recs| == |rows| && forall i :: 0 <= i < |rows| ==> recs[i] == ChannelRecord(rows[i])
  {
    if rows == [] then [] else [ChannelRecord(rows[0])] + ChannelRecords(rows[1..])
  }

  function ChannelMetricRecords(rows: seq<ChannelMetricRow>): (recs: seq<Record>)
    ensures |recs| == |rows| && forall i :: 0 <= i < |rows| ==> recs[i] == ChannelMetricRecord(rows[i])
  {
    if rows == [] then [] else [ChannelMetricRecord(rows[0])] + ChannelMetricRecords(rows[1..])
  }

  function VideoRecords(rows: seq<VideoRow>): (recs: seq<Record>)
    ensures |recs| == |rows| && forall i :: 0 <= i < |rows| ==> recs[i] == VideoRecord(rows[i])
  {
    if rows == [] then [] else [VideoRecord(rows[0])] + VideoRecords(rows[1..])
  }

  function VideoMetricRecords(rows: seq<VideoMetricRow>): (recs: seq<Record>)
    ensures |recs| == |rows| && forall i :: 0 <= i < |rows| ==> recs[i] == VideoMetricRecord(rows[i])
  {
    if rows == [] then [] else [VideoMetricRecord(rows[0])] + VideoMetricRecords(rows[1..])
  }
}
