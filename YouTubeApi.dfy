/** The client of the YouTube Data API v3 (etl/src/extract/youtube_api.py).

    The HTTP layer is abstracted as a `Server`: for every endpoint, the answer it gives
    to the parameters the client sends, or the failure `_make_request` would raise
    (a transport error or a non-2xx status). The `playlistItems` endpoint is a finite
    list of pages per playlist: the k-th request of one pagination run is answered with
    the k-th page, and a request past the last page gets an empty page. */
module YouTubeApi {
  import opened Wrappers
  import opened Text
  import opened Resources

  const PageCap := 50  // largest `maxResults` the client asks `playlistItems` for
  const CommentCap := 100  // largest `maxResults` the client asks `commentThreads` for

  /** A query parameter value. */
  datatype Param = Str(s: string) | Num(n: int)

  /** One GET request: the endpoint below the API's base URL and the query parameters
      (the `key` parameter that `_make_request` adds is not modelled). */
  datatype Request = Request(endpoint: string, params: map<string, Param>)

  /** What `requests` raises: a transport failure or an HTTP error status. */
  datatype ApiFailure = Transport(reason: string) | HttpStatus(code: int)

  /** The exceptions the client's methods let escape. */
  datatype Error =
    | MissingApiKey                                  // ValueError from the constructor
    | RequestFailed(endpoint: string, cause: ApiFailure)
    | MissingKey(path: string)                       // KeyError on a subscript
    | NameError(name: string)                        // a name read before assignment

  /** The API as the client sees it. */
  datatype Server = Server(
    channels: string -> Result<seq<Channel>, ApiFailure>,           // `items` for an `id` list
    playlistPages: string -> seq<Result<Page, ApiFailure>>,        // the pages of a playlist
    videos: string -> Result<seq<Video>, ApiFailure>,               // `items` for an `id` list
    commentThreads: (string, int) -> Result<seq<CommentThread>, ApiFailure>)  // videoId, maxResults

  /** A constructed `YouTubeAPI` object. */
  datatype Client = Client(apiKey: string, server: Server)

  /** What an API call returns or raises, and the requests it sent, in order. */
  datatype Fetch<T> = Fetch(result: Result<T, Error>, sent: seq<Request>)

  /** `YouTubeAPI(api_key)`: `apiKey` is the key given, or else the environment's. An
      empty or absent key raises ValueError. */
  function NewClient(apiKey: string, server: Server): (r: Result<Client, Error>)
    ensures r.Success? <==> apiKey != ""
    ensures r.Success? ==> r.value == Client(apiKey, server)
    ensures r.Failure? ==> r.error == MissingApiKey
  {
    if apiKey == "" then Failure(MissingApiKey) else Success(Client(apiKey, server))
  }

  /** A server answer as `_make_request` delivers it: the data, or the exception. */
  function Call<T>(endpoint: string, answer: Result<T, ApiFailure>): (r: Result<T, Error>)
    ensures r.Success? <==> answer.Success?
    ensures r.Success? ==> r.value == answer.value
    ensures r.Failure? ==> r.error == RequestFailed(endpoint, answer.error)
  {
    match answer
    case Success(v) => Success(v)
    case Failure(e) => Failure(RequestFailed(endpoint, e))
  }

  /** Python truthiness of an optional string: present and non-empty. */
  predicate Truthy(t: Option<string>)
  {
    t.Some? && t.value != ""
  }

  function CommaJoin(ids: seq<string>): string
  {
    Join(ids, ',')
  }

  function ChannelsRequest(ids: seq<string>): Request
  {
    Request("channels", map["part" := Str("snippet,statistics,contentDetails"), "id" := Str(CommaJoin(ids))])
  }

  function VideosRequest(ids: seq<string>): Request
  {
    Request("videos", map["part" := Str("snippet,statistics,contentDetails"), "id" := Str(CommaJoin(ids))])
  }

  /** The `playlistItems` request; `pageToken` is sent only when the token is truthy. */
  function PlaylistItemsRequest(playlistId: string, maxResults: int, token: Option<string>): Request
  {
    var base := map["part" := Str("snippet,contentDetails"), "playlistId" := Str(playlistId),
                    "maxResults" := Num(maxResults)];
    Request("playlistItems", if Truthy(token) then base["pageToken" := Str(token.value)] else base)
  }

  function CommentThreadsRequest(videoId: string, maxResults: int): Request
  {
    Request("commentThreads", map["part" := Str("snippet"), "videoId" := Str(videoId),
                                  "maxResults" := Num(maxResults), "textFormat" := Str("plainText"),
                                  "order" := Str("relevance")])
  }

  /** The string a request sends for parameter `name`, if any. */
  function StrParam(r: Request, name: string): Option<string>
  {
    if name in r.params && r.params[name].Str? then Some(r.params[name].s) else None
  }

  /** The number a request sends for parameter `name`, if any. */
  function NumParam(r: Request, name: string): Option<int>
  {
    if name in r.params && r.params[name].Num? then Some(r.params[name].n) else None
  }

  /** `get_channel_details(channel_ids)`: no IDs, no request; otherwise one `channels`
      request whose `id` is the comma-join of the IDs, answered with its `items`. */
  function GetChannelDetails(client: Client, ids: seq<string>): (f: Fetch<seq<Channel>>)
    ensures ids == [] ==> f == Fetch(Success([]), [])
    ensures ids != [] ==> f.sent == [ChannelsRequest(ids)]
    ensures ids != [] ==> f.result == Call("channels", client.server.channels(CommaJoin(ids)))
  {
    if ids == [] then Fetch(Success([]), [])
    else Fetch(Call("channels", client.server.channels(CommaJoin(ids))), [ChannelsRequest(ids)])
  }

  /** The `id` parameter of an ID-list request names exactly the requested IDs, in
      order: splitting it at the commas gives them back. */
  lemma {:induction false} IdListRoundTrip(client: Client, ids: seq<string>)
    requires ids != []
    requires forall id :: id in ids ==> ',' !in id
    ensures |GetChannelDetails(client, ids).sent| == 1
    ensures var r := GetChannelDetails(client, ids).sent[0];
      StrParam(r, "id").Some? && Split(StrParam(r, "id").value, ',') == ids
    ensures StrParam(VideosRequest(ids), "id").Some?
    ensures Split(StrParam(VideosRequest(ids), "id").value, ',') == ids
  {
    SplitJoin(ids, ',');
  }

  /** The `videoId` of every playlist item, or the KeyError of the first one without. */
  function VideoIds(items: seq<PlaylistItem>): (r: Result<seq<string>, Error>)
    ensures r.Success? <==> forall i :: 0 <= i < |items| ==> VideoIdOf(items[i]).Some?
    ensures r.Success? ==> |r.value| == |items|
    ensures r.Success? ==> forall i :: 0 <= i < |items| ==> VideoIdOf(items[i]) == Some(r.value[i])
    ensures r.Failure? ==> r.error == MissingKey("contentDetails.videoId")
  {
    if items == [] then Success([])
    else
      match VideoIdOf(items[0])
      case None => Failure(MissingKey("contentDetails.videoId"))
      case Some(id) =>
        match VideoIds(items[1..])
        case Failure(e) => Failure(e)
        case Success(rest) =>
          assert forall i :: 1 <= i < |items| ==> items[i] == items[1..][i - 1];
          Success([id] + rest)
  }

  /** `_get_video_statistics(video_ids)` as it is evidently meant to work: no IDs, no
      request; otherwise one `videos` request for the comma-joined IDs, answered with
      its `items`. */
  function VideoDetails(client: Client, ids: seq<string>): (f: Fetch<seq<Video>>)
    ensures ids == [] ==> f == Fetch(Success([]), [])
    ensures ids != [] ==> f.sent == [VideosRequest(ids)]
    ensures ids != [] ==> f.result == Call("videos", client.server.videos(CommaJoin(ids)))
  {
    if ids == [] then Fetch(Success([]), [])
    else Fetch(Call("videos", client.server.videos(CommaJoin(ids))), [VideosRequest(ids)])
  }

  /** `_get_video_statistics(video_ids)` as written: it builds the parameters but never
      sends them, then reads `data`, which it never assigned. */
  function VideoDetailsAsWritten(client: Client, ids: seq<string>): (f: Fetch<seq<Video>>)
    ensures f.sent == []
    ensures f.result.Success? <==> ids == []
  {
    if ids == [] then Fetch(Success([]), []) else Fetch(Failure(NameError("data")), [])
  }

  /** As written, the detail fetch of a non-empty page never reaches the API and never
      yields a video, whatever the API holds; the corrected one asks the API once. */
  lemma AsWrittenDetailFetchFails(client: Client, ids: seq<string>)
    requires ids != []
    ensures VideoDetailsAsWritten(client, ids) == Fetch(Failure(NameError("data")), [])
    ensures VideoDetails(client, ids).sent == [VideosRequest(ids)]
    ensures client.server.videos(CommaJoin(ids)).Success? ==>
      VideoDetails(client, ids).result == Success(client.server.videos(CommaJoin(ids)).value)
  {
  }

  /** Python's `s[:n]`: the first `n` elements, or all but the last `-n` when `n` is
      negative. */
  function Prefix<T>(s: seq<T>, n: int): (r: seq<T>)
    ensures n >= 0 ==> r == s[..Min(n, |s|)]
    ensures n < 0 ==> r == s[..Max(|s| + n, 0)]
  {
    if n >= |s| then s else if n >= 0 then s[..n] else if |s| + n > 0 then s[..|s| + n] else []
  }

  /** One iteration of the pagination loop: the page request, and the detail requests
      made for that page's video IDs. */
  datatype Round = Round(request: Request, details: seq<Request>)

  /** The requests of a run of rounds, in the order they are sent. */
  function Flatten(rounds: seq<Round>): seq<Request>
  {
    if rounds == [] then []
    else
      var last := rounds[|rounds| - 1];
      Flatten(rounds[..|rounds| - 1]) + [last.request] + last.details
  }

  /** The outcome of the pagination loop and its rounds. */
  datatype Pagination = Pagination(result: Result<seq<Video>, Error>, rounds: seq<Round>)

  /** The pagination loop of `get_videos`, entered with `videos` collected so far, `token`
      as `next_page_token` and `k` as the index of the page the next request returns. */
  function Paginate(client: Client, playlistId: string, limit: int, k: nat,
                    videos: seq<Video>, token: Option<string>): (p: Pagination)
    ensures limit >= 0 && p.result.Success? ==> |p.result.value| <= limit
    ensures |videos| < limit <==> p.rounds != []
    decreases |client.server.playlistPages(playlistId)| - k
  {
    var pages := client.server.playlistPages(playlistId);
    if |videos| >= limit then Pagination(Success(Prefix(videos, limit)), [])
    else
      var req := PlaylistItemsRequest(playlistId, Min(PageCap, limit - |videos|), token);
      if k >= |pages| then Pagination(Success(Prefix(videos, limit)), [Round(req, [])])
      else
        match pages[k]
        case Failure(e) => Pagination(Failure(RequestFailed("playlistItems", e)), [Round(req, [])])
        case Success(page) =>
          if page.items == [] then Pagination(Success(Prefix(videos, limit)), [Round(req, [])])
          else
            match VideoIds(page.items)
            case Failure(e) => Pagination(Failure(e), [Round(req, [])])
            case Success(ids) =>
              var d := VideoDetails(client, ids);
              match d.result
              case Failure(e) => Pagination(Failure(e), [Round(req, d.sent)])
              case Success(found) =>
                if !Truthy(page.nextPageToken) then
                  Pagination(Success(Prefix(videos + found, limit)), [Round(req, d.sent)])
                else
                  var rest := Paginate(client, playlistId, limit, k + 1, videos + found, page.nextPageToken);
                  Pagination(rest.result, [Round(req, d.sent)] + rest.rounds)
  }

  /** `get_videos(channel_id, limit)`: look the channel up, then page through its
      uploads playlist. */
  function Videos(client: Client, channelId: string, limit: int): (f: Fetch<seq<Video>>)
    ensures f.sent != [] && f.sent[0] == ChannelsRequest([channelId])
    ensures limit >= 0 && f.result.Success? ==> |f.result.value| <= limit
  {
    var ch := GetChannelDetails(client, [channelId]);
    match ch.result
    case Failure(e) => Fetch(Failure(e), ch.sent)
    case Success(found) =>
      if found == [] then Fetch(Success([]), ch.sent)
      else
        match UploadsPlaylist(found[0])
        case None => Fetch(Failure(MissingKey("contentDetails.relatedPlaylists.uploads")), ch.sent)
        case Some(playlistId) =>
          var p := Paginate(client, playlistId, limit, 0, [], None);
          Fetch(p.result, ch.sent + Flatten(p.rounds))
  }

  /** The reference for what pagination collects, free of any limit: the detailed videos
      of page `k` and of every page after it that the chain of truthy tokens reaches,
      up to the first empty, missing or failing page. */
  function Harvest(client: Client, playlistId: string, k: nat): (h: seq<Video>)
    ensures var pages := client.server.playlistPages(playlistId);
      k >= |pages| || pages[k].Failure? || pages[k].value.items == [] ==> h == []
    ensures Continues(client, playlistId, k) ==> h == Found(client, playlistId, k) + Harvest(client, playlistId, k + 1)
    decreases |client.server.playlistPages(playlistId)| - k
  {
    var pages := client.server.playlistPages(playlistId);
    if k >= |pages| || pages[k].Failure? || pages[k].value.items == [] then []
    else
      var page := pages[k].value;
      match VideoIds(page.items)
      case Failure(_) => []
      case Success(ids) =>
        match VideoDetails(client, ids).result
        case Failure(_) => []
        case Success(found) =>
          found + (if Truthy(page.nextPageToken) then Harvest(client, playlistId, k + 1) else [])
  }

  /** Whether the loop goes on past page `j`: the page exists, holds items whose IDs and
      details were fetched, and carries a truthy `nextPageToken`. */
  predicate Continues(client: Client, playlistId: string, j: int)
  {
    var pages := client.server.playlistPages(playlistId);
    && 0 <= j < |pages| && pages[j].Success? && pages[j].value.items != []
    && VideoIds(pages[j].value.items).Success?
    && VideoDetails(client, VideoIds(pages[j].value.items).value).result.Success?
    && Truthy(pages[j].value.nextPageToken)
  }

  /** The `nextPageToken` of page `j` of a playlist, if that page was delivered. */
  function PageToken(client: Client, playlistId: string, j: int): Option<string>
  {
    var pages := client.server.playlistPages(playlistId);
    if 0 <= j < |pages| && pages[j].Success? then pages[j].value.nextPageToken else None
  }

  /** A successful pagination returns exactly the first `limit` videos of what was
      collected so far followed by everything the pages still offer: no video lost,
      duplicated or reordered, and never more than `limit`. */
  lemma {:induction false} PaginateCollects(client: Client, playlistId: string, limit: int, k: nat,
                                            videos: seq<Video>, token: Option<string>)
    requires limit > 0 || videos == []
    ensures var p := Paginate(client, playlistId, limit, k, videos, token);
      p.result.Success? ==> p.result.value == Prefix(videos + Harvest(client, playlistId, k), Max(limit, 0))
    decreases |client.server.playlistPages(playlistId)| - k
  {
    var pages := client.server.playlistPages(playlistId);
    var h := Harvest(client, playlistId, k);
    if |videos| >= limit {
      assert Prefix(videos, limit) == Prefix(videos + h, Max(limit, 0));
    } else if k >= |pages| || pages[k].Failure? || pages[k].value.items == [] {
      assert h == [] && videos + h == videos;
    } else {
      var page := pages[k].value;
      match VideoIds(page.items)
      case Failure(_) =>
      case Success(ids) =>
        match VideoDetails(client, ids).result
        case Failure(_) =>
        case Success(found) =>
          if Truthy(page.nextPageToken) {
            PaginateCollects(client, playlistId, limit, k + 1, videos + found, page.nextPageToken);
            assert videos + found + Harvest(client, playlistId, k + 1) == videos + h;
          } else {
            assert h == found + [];
            assert videos + found == videos + h;
          }
    }
  }

  /** The videos the detail fetch returns for page `j`, on a page the loop goes on past. */
  function Found(client: Client, playlistId: string, j: int): seq<Video>
    requires Continues(client, playlistId, j)
  {
    var pages := client.server.playlistPages(playlistId);
    VideoDetails(client, VideoIds(pages[j].value.items).value).result.value
  }

  /** One step of the loop past page `k`: a round for page `k`, then the loop from page
      `k + 1` with that page's videos added and its token as `next_page_token`. */
  lemma PaginateStep(client: Client, playlistId: string, limit: int, k: nat,
                     videos: seq<Video>, token: Option<string>)
    requires |videos| < limit && Continues(client, playlistId, k)
    ensures var p := Paginate(client, playlistId, limit, k, videos, token);
      var rest := Paginate(client, playlistId, limit, k + 1, videos + Found(client, playlistId, k),
                           PageToken(client, playlistId, k));
      |p.rounds| == 1 + |rest.rounds| && p.rounds[1..] == rest.rounds && p.result == rest.result
  {
  }

  /** Where the loop does not go on past page `k`, it makes at most one more round. */
  lemma PaginateStops(client: Client, playlistId: string, limit: int, k: nat,
                      videos: seq<Video>, token: Option<string>)
    requires !(|videos| < limit && Continues(client, playlistId, k))
    ensures |Paginate(client, playlistId, limit, k, videos, token).rounds| == if |videos| < limit then 1 else 0
  {
  }

  /** The first round of the loop asks for `min(50, limit - len(videos))` items of the
      playlist, which is between 1 and 50, and carries `token` only if it is truthy. */
  lemma PaginateFirstRequest(client: Client, playlistId: string, limit: int, k: nat,
                             videos: seq<Video>, token: Option<string>)
    requires |videos| < limit
    ensures var rounds := Paginate(client, playlistId, limit, k, videos, token).rounds;
      && |rounds| > 0
      && rounds[0].request.endpoint == "playlistItems"
      && StrParam(rounds[0].request, "playlistId") == Some(playlistId)
      && NumParam(rounds[0].request, "maxResults") == Some(Min(PageCap, limit - |videos|))
      && 1 <= Min(PageCap, limit - |videos|) <= PageCap
      && StrParam(rounds[0].request, "pageToken") == (if Truthy(token) then token else None)
  {
    var req := PlaylistItemsRequest(playlistId, Min(PageCap, limit - |videos|), token);
    PlaylistItemsParams(playlistId, Min(PageCap, limit - |videos|), token);
    assert Paginate(client, playlistId, limit, k, videos, token).rounds[0].request == req;
  }

  lemma PlaylistItemsParams(playlistId: string, maxResults: int, token: Option<string>)
    ensures var req := PlaylistItemsRequest(playlistId, maxResults, token);
      && req.endpoint == "playlistItems"
      && StrParam(req, "playlistId") == Some(playlistId)
      && NumParam(req, "maxResults") == Some(maxResults)
      && StrParam(req, "pageToken") == (if Truthy(token) then token else None)
  {
  }

  /** Every request of the pagination loop goes to `playlistItems` for the playlist and
      asks for between 1 and 50 items; there are rounds exactly when fewer than `limit`
      videos are collected, and at most as many as pages remain, plus one. */
  lemma {:induction false} PaginateRequests(client: Client, playlistId: string, limit: int, k: nat,
                                            videos: seq<Video>, token: Option<string>)
    ensures var rounds := Paginate(client, playlistId, limit, k, videos, token).rounds;
      |videos| < limit <==> |rounds| > 0
    ensures var rounds := Paginate(client, playlistId, limit, k, videos, token).rounds;
      forall j :: 0 <= j < |rounds| ==>
        && rounds[j].request.endpoint == "playlistItems"
        && StrParam(rounds[j].request, "playlistId") == Some(playlistId)
        && NumParam(rounds[j].request, "maxResults").Some?
        && 1 <= NumParam(rounds[j].request, "maxResults").value <= PageCap
    ensures k <= |client.server.playlistPages(playlistId)| ==>
      |Paginate(client, playlistId, limit, k, videos, token).rounds| <= |client.server.playlistPages(playlistId)| - k + 1
    decreases |client.server.playlistPages(playlistId)| - k
  {
    if |videos| < limit {
      PaginateFirstRequest(client, playlistId, limit, k, videos, token);
    }
    if |videos| < limit && Continues(client, playlistId, k) {
      var videos' := videos + Found(client, playlistId, k);
      PaginateStep(client, playlistId, limit, k, videos, token);
      PaginateRequests(client, playlistId, limit, k + 1, videos', PageToken(client, playlistId, k));
      var p := Paginate(client, playlistId, limit, k, videos, token);
      forall j | 1 <= j < |p.rounds|
        ensures p.rounds[j] == Paginate(client, playlistId, limit, k + 1, videos', PageToken(client, playlistId, k)).rounds[j - 1]
      {
      }
    } else {
      PaginateStops(client, playlistId, limit, k, videos, token);
    }
  }

  /** Round `j` of a run of the loop begun at page `k` continues the round before it:
      the loop only went on past page `k + j - 1` because that page exists, is
      non-empty, had its details fetched and carries a truthy `nextPageToken`, and
      round `j` sends exactly that token. */
  predicate Threaded(client: Client, playlistId: string, k: int, rounds: seq<Round>, j: int)
    requires 0 < j < |rounds|
  {
    Continues(client, playlistId, k + j - 1) &&
    StrParam(rounds[j].request, "pageToken") == PageToken(client, playlistId, k + j - 1)
  }

  /** Token threading and the stopping rules hold for every round after the first. */
  lemma {:induction false} PaginateTokens(client: Client, playlistId: string, limit: int, k: nat,
                                          videos: seq<Video>, token: Option<string>)
    ensures var rounds := Paginate(client, playlistId, limit, k, videos, token).rounds;
      forall j :: 0 < j < |rounds| ==> Threaded(client, playlistId, k, rounds, j)
    decreases |client.server.playlistPages(playlistId)| - k
  {
    if |videos| < limit && Continues(client, playlistId, k) {
      var videos' := videos + Found(client, playlistId, k);
      var t := PageToken(client, playlistId, k);
      PaginateStep(client, playlistId, limit, k, videos, token);
      PaginateTokens(client, playlistId, limit, k + 1, videos', t);
      var p := Paginate(client, playlistId, limit, k, videos, token);
      var rest := Paginate(client, playlistId, limit, k + 1, videos', t);
      if |videos'| < limit {
        PaginateFirstRequest(client, playlistId, limit, k + 1, videos', t);
      }
      forall j | 0 < j < |p.rounds|
        ensures Threaded(client, playlistId, k, p.rounds, j)
      {
        assert p.rounds[j] == rest.rounds[j - 1];
        if j > 1 {
          assert Threaded(client, playlistId, k + 1, rest.rounds, j - 1);
          assert (k + 1) + (j - 1) - 1 == k + j - 1;
        }
      }
    } else {
      PaginateStops(client, playlistId, limit, k, videos, token);
    }
  }

  /** `get_videos` when the channel lookup finds nothing: the result is empty and the
      only request sent is the lookup; no playlist is paged. */
  lemma ChannelNotFound(client: Client, channelId: string, limit: int)
    requires client.server.channels(channelId) == Success([])
    ensures Videos(client, channelId, limit) == Fetch(Success([]), [ChannelsRequest([channelId])])
  {
  }

  /** `get_videos` on a channel with an uploads playlist: a successful result is the
      first `limit` videos the playlist's pages offer, so never more than `limit`; the
      requests are the channel lookup followed by the pagination rounds. */
  lemma {:induction false} VideosOfChannel(client: Client, channelId: string, limit: int, channel: Channel, playlistId: string)
    requires client.server.channels(channelId).Success?
    requires client.server.channels(channelId).value != []
    requires client.server.channels(channelId).value[0] == channel
    requires UploadsPlaylist(channel) == Some(playlistId)
    ensures var f := Videos(client, channelId, limit);
      var p := Paginate(client, playlistId, limit, 0, [], None);
      && f.sent == [ChannelsRequest([channelId])] + Flatten(p.rounds)
      && (f.result.Success? ==>
            f.result.value == Prefix(Harvest(client, playlistId, 0), Max(limit, 0))
            && |f.result.value| <= Max(limit, 0))
      && (limit > 0 ==> StrParam(p.rounds[0].request, "pageToken") == None)
  {
    assert CommaJoin([channelId]) == channelId;
    PaginateCollects(client, playlistId, limit, 0, [], None);
    if limit > 0 {
      PaginateFirstRequest(client, playlistId, limit, 0, [], None);
    }
    assert [] + Harvest(client, playlistId, 0) == Harvest(client, playlistId, 0);
  }

  /** `get_videos(channel_id, limit)`: look the channel up, then page through the
      playlist of its uploads. */
  method GetVideos(client: Client, channelId: string, limit: int) returns (r: Result<seq<Video>, Error>, sent: seq<Request>)
    ensures Fetch(r, sent) == Videos(client, channelId, limit)
  {
    var ch := GetChannelDetails(client, [channelId]);
    if ch.result.Failure? {
      return Failure(ch.result.error), ch.sent;
    }
    var found := ch.result.value;
    if found == [] {
      return Success([]), ch.sent;
    }
    var uploads := UploadsPlaylist(found[0]);
    if uploads.None? {
      return Failure(MissingKey("contentDetails.relatedPlaylists.uploads")), ch.sent;
    }
    var rounds;
    r, rounds := PageThrough(client, uploads.value, limit);
    sent := ch.sent + Flatten(rounds);
  }

  /** The loop of `get_videos`, step for step: while fewer than `limit` videos are
      collected, request a page of `min(50, limit - len(videos))` items, stop on an
      empty page, fetch the details of its video IDs, extend, and stop when the page
      has no truthy `nextPageToken`; finally cut the list to `limit`. `rounds` records
      the requests of each pass, in the order they are sent. */
  method PageThrough(client: Client, playlistId: string, limit: int) returns (r: Result<seq<Video>, Error>, rounds: seq<Round>)
    ensures r == Paginate(client, playlistId, limit, 0, [], None).result
    ensures rounds == Paginate(client, playlistId, limit, 0, [], None).rounds
  {
    var pages := client.server.playlistPages(playlistId);
    var videos: seq<Video> := [];
    var token: Option<string> := None;
    var k: nat := 0;
    rounds := [];
    ghost var whole := Paginate(client, playlistId, limit, 0, [], None);
    while |videos| < limit
      invariant k <= |pages|
      invariant whole.result == Paginate(client, playlistId, limit, k, videos, token).result
      invariant whole.rounds == rounds + Paginate(client, playlistId, limit, k, videos, token).rounds
      decreases |pages| - k
    {
      var round, more, videos', token', outcome := PageRound(client, playlistId, limit, k, videos, token);
      ghost var rest := Paginate(client, playlistId, limit, k, videos, token).rounds;
      rounds := rounds + [round];
      if !more {
        assert whole.rounds == rounds;
        return outcome, rounds;
      }
      assert whole.rounds == rounds + rest[1..];
      videos, token, k := videos', token', k + 1;
    }
    assert whole.rounds == rounds;
    r := Success(Prefix(videos, limit));
  }

  /** One pass of the body of the pagination loop, on page `k`: the round it makes,
      and either `more` with the videos and token the loop goes on with, or the
      `outcome` of `get_videos` when the pass breaks out of the loop or raises. */
  method PageRound(client: Client, playlistId: string, limit: int, k: nat, videos: seq<Video>, token: Option<string>)
    returns (round: Round, more: bool, videos': seq<Video>, token': Option<string>, outcome: Result<seq<Video>, Error>)
    requires |videos| < limit
    ensures var here := Paginate(client, playlistId, limit, k, videos, token);
      && here.rounds != [] && here.rounds[0] == round
      && round.request == PlaylistItemsRequest(playlistId, Min(PageCap, limit - |videos|), token)
      && (!more ==> here.result == outcome && here.rounds == [round])
    ensures more ==>
      && k < |client.server.playlistPages(playlistId)|
      && var here := Paginate(client, playlistId, limit, k, videos, token);
         var rest := Paginate(client, playlistId, limit, k + 1, videos', token');
         here.result == rest.result && here.rounds[1..] == rest.rounds
  {
    var pages := client.server.playlistPages(playlistId);
    var request := PlaylistItemsRequest(playlistId, Min(PageCap, limit - |videos|), token);
    more, videos', token' := false, videos, token;
    if k >= |pages| {
      return Round(request, []), false, videos, token, Success(Prefix(videos, limit));
    }
    var answer := pages[k];
    if answer.Failure? {
      return Round(request, []), false, videos, token, Failure(RequestFailed("playlistItems", answer.error));
    }
    var page := answer.value;
    if page.items == [] {
      return Round(request, []), false, videos, token, Success(Prefix(videos, limit));
    }
    var ids := VideoIds(page.items);
    if ids.Failure? {
      return Round(request, []), false, videos, token, Failure(ids.error);
    }
    var details := VideoDetails(client, ids.value);
    round := Round(request, details.sent);
    if details.result.Failure? {
      return round, false, videos, token, Failure(details.result.error);
    }
    videos' := videos + details.result.value;
    if !Truthy(page.nextPageToken) {
      return round, false, videos', token, Success(Prefix(videos', limit));
    }
    more, token', outcome := true, page.nextPageToken, Success(Prefix(videos', limit));
  }

  /** `get_video_comments(video_id, limit)`: one `commentThreads` request for at most
      `min(limit, 100)` comments; any failure is swallowed and yields no comments. */
  function GetVideoComments(client: Client, videoId: string, limit: int := 20): (f: Fetch<seq<CommentThread>>)
    ensures f.result.Success?
    ensures |f.sent| == 1 && f.sent[0].endpoint == "commentThreads"
    ensures StrParam(f.sent[0], "videoId") == Some(videoId)
    ensures NumParam(f.sent[0], "maxResults") == Some(Min(limit, CommentCap))
    ensures NumParam(f.sent[0], "maxResults").value <= CommentCap
    ensures match client.server.commentThreads(videoId, Min(limit, CommentCap))
      case Failure(_) => f.result.value == []
      case Success(items) => f.result.value == items
  {
    var request := CommentThreadsRequest(videoId, Min(limit, CommentCap));
    match client.server.commentThreads(videoId, Min(limit, CommentCap))
    case Failure(_) => Fetch(Success([]), [request])
    case Success(items) => Fetch(Success(items), [request])
  }
}
