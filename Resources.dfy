/** The resource objects of the YouTube Data API v3 that the pipeline reads, as nested
    records. A field of type `Option` is a key that the JSON object may lack; statistics,
    which the API sends as digit strings, are already the numbers they spell. Only the
    fields the pipeline reads are modelled. */
module Resources {
  import opened Wrappers

  /** `thumbnails.high` */
  datatype Thumbnail = Thumbnail(url: Option<string>)
  datatype Thumbnails = Thumbnails(high: Option<Thumbnail>)

  /** A `channels` resource. */
  datatype Channel = Channel(
    id: Option<string>,
    snippet: Option<ChannelSnippet>,
    statistics: Option<ChannelStatistics>,
    contentDetails: Option<ChannelContentDetails>)

  datatype ChannelSnippet = ChannelSnippet(
    title: Option<string>,
    description: Option<string>,
    customUrl: Option<string>,
    publishedAt: Option<string>,
    thumbnails: Option<Thumbnails>,
    country: Option<string>)

  datatype ChannelStatistics = ChannelStatistics(
    viewCount: Option<nat>,
    subscriberCount: Option<nat>,
    videoCount: Option<nat>)

  /** `contentDetails.relatedPlaylists.uploads`: the playlist of the channel's uploads. */
  datatype ChannelContentDetails = ChannelContentDetails(relatedPlaylists: Option<RelatedPlaylists>)
  datatype RelatedPlaylists = RelatedPlaylists(uploads: Option<string>)

  /** A `videos` resource. */
  datatype Video = Video(
    id: Option<string>,
    snippet: Option<VideoSnippet>,
    statistics: Option<VideoStatistics>,
    contentDetails: Option<VideoContentDetails>)

  datatype VideoSnippet = VideoSnippet(
    channelId: Option<string>,
    title: Option<string>,
    description: Option<string>,
    publishedAt: Option<string>,
    thumbnails: Option<Thumbnails>,
    tags: Option<seq<string>>,
    categoryId: Option<string>)

  datatype VideoStatistics = VideoStatistics(
    viewCount: Option<nat>,
    likeCount: Option<nat>,
    commentCount: Option<nat>)

  /** `duration` is the raw ISO 8601 string, e.g. "PT4M13S". */
  datatype VideoContentDetails = VideoContentDetails(
    duration: Option<string>,
    definition: Option<string>,
    caption: Option<string>)

  /** A `playlistItems` resource: only `contentDetails.videoId` is read. */
  datatype PlaylistItem = PlaylistItem(contentDetails: Option<PlaylistItemDetails>)
  datatype PlaylistItemDetails = PlaylistItemDetails(videoId: Option<string>)

  /** A `commentThreads` resource, passed through without being read. */
  datatype CommentThread = CommentThread(id: Option<string>)

  /** One response of the `playlistItems` endpoint: its `items` and its `nextPageToken`. */
  datatype Page = Page(items: seq<PlaylistItem>, nextPageToken: Option<string>)

  /** `channel["contentDetails"]["relatedPlaylists"]["uploads"]`, or None where the
      subscript would raise KeyError. */
  function UploadsPlaylist(c: Channel): Option<string>
  {
    match c.contentDetails
    case None => None
    case Some(d) =>
      match d.relatedPlaylists
      case None => None
      case Some(p) => p.uploads
  }

  /** `item["contentDetails"]["videoId"]`, or None where the subscript would raise KeyError. */
  function VideoIdOf(item: PlaylistItem): Option<string>
  {
    match item.contentDetails
    case None => None
    case Some(d) => d.videoId
  }
}
