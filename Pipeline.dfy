/** The pipeline driver (etl/src/main.py): parse the configured channel ids, fetch and
    load the channels and their daily metrics, then for each configured channel fetch
    its latest videos and load them with their daily metrics. API requests and loader
    calls are recorded as a trace of events. */
module Pipeline {
  import opened Wrappers
  import opened Text
  import opened Rows
  import opened Resources
  import opened YouTubeApi
  import opened CleanData
  import opened LoadSql

  // ---------------------------------------------------------------------------
  // Channel-id parsing.

  /** `[cid.strip() for cid in pieces if cid.strip()]` */
  function KeepStripped(pieces: seq<string>): (ids: seq<string>)
    ensures |ids| <= |pieces|
    ensures forall i :: 0 <= i < |ids| ==> ids[i] != "" && Stripped(ids[i])
  {
    if pieces == [] then [] else Kept(pieces[0]) + KeepStripped(pieces[1..])
  }

  /** What one piece contributes: its stripped form, unless that is empty. */
  function Kept(piece: string): seq<string> {
    var t := Strip(piece);
    if t != "" then [t] else []
  }

  /** The ids kept are exactly the non-empty stripped pieces. */
  lemma {:induction false} KeepStrippedMembers(pieces: seq<string>)
    ensures forall p :: p in pieces && Strip(p) != "" ==> Strip(p) in KeepStripped(pieces)
    ensures forall id :: id in KeepStripped(pieces) ==> exists p :: p in pieces && Strip(p) == id
    decreases |pieces|
  {
    if pieces != [] {
      KeepStrippedMembers(pieces[1..]);
      assert forall p :: p in pieces ==> p == pieces[0] || p in pieces[1..];
    }
  }

  /** A stripped piece has no character its piece lacks. */
  lemma StripWithin(s: string, c: char)
    requires c !in s
    ensures c !in Strip(s)
  {
  }

  lemma {:induction false} KeepStrippedWithin(pieces: seq<string>, c: char)
    requires forall p :: p in pieces ==> c !in p
    ensures forall i :: 0 <= i < |KeepStripped(pieces)| ==> c !in KeepStripped(pieces)[i]
    decreases |pieces|
  {
    if pieces != [] {
      StripWithin(pieces[0], c);
      assert forall p :: p in pieces[1..] ==> p in pieces;
      KeepStrippedWithin(pieces[1..], c);
    }
  }

  /** Pieces that are already non-empty and stripped are all kept, unchanged. */
  lemma {:induction false} KeepStrippedAll(pieces: seq<string>)
    requires forall i :: 0 <= i < |pieces| ==> pieces[i] != "" && Stripped(pieces[i])
    ensures KeepStripped(pieces) == pieces
    decreases |pieces|
  {
    if pieces != [] {
      StripFixedPoint(pieces[0]);
      KeepStrippedAll(pieces[1..]);
    }
  }

  /** Stripping keeps the order of the pieces: the ids of a concatenation are the ids
      of its parts, concatenated. */
  lemma {:induction false} KeepStrippedAppend(a: seq<string>, b: seq<string>)
    ensures KeepStripped(a + b) == KeepStripped(a) + KeepStripped(b)
    decreases |a|
  {
    if a == [] {
      assert a + b == b;
    } else {
      assert (a + b)[0] == a[0];
      assert (a + b)[1..] == a[1..] + b;
      KeepStrippedAppend(a[1..], b);
    }
  }

  /** The channel ids configured in `YOUTUBE_CHANNEL_IDS`: the comma-separated pieces,
      stripped, with the empty ones dropped. */
  function ParseChannelIds(env: string): (ids: seq<string>)
    ensures forall i :: 0 <= i < |ids| ==> ids[i] != "" && Stripped(ids[i]) && ',' !in ids[i]
    ensures forall p :: p in Split(env, ',') && Strip(p) != "" ==> Strip(p) in ids
    ensures forall id :: id in ids ==> exists p :: p in Split(env, ',') && Strip(p) == id
  {
    var ids := KeepStripped(Split(env, ','));
    KeepStrippedWithin(Split(env, ','), ',');
    KeepStrippedMembers(Split(env, ','));
    ids
  }

  /** Writing a list of clean ids into the variable, comma-separated, reads it back. */
  lemma ParseJoin(ids: seq<string>)
    requires forall i :: 0 <= i < |ids| ==> ids[i] != "" && Stripped(ids[i]) && ',' !in ids[i]
    ensures ParseChannelIds(Join(ids, ',')) == ids
  {
    if ids == [] {
      assert Split("", ',') == [""];
    } else {
      SplitJoin(ids, ',');
      KeepStrippedAll(ids);
    }
  }

  /** Parsing normalises: the parsed ids, written back comma-separated, parse to
      themselves. */
  lemma ParseNormalises(env: string)
    ensures ParseChannelIds(Join(ParseChannelIds(env), ',')) == ParseChannelIds(env)
  {
    ParseJoin(ParseChannelIds(env));
  }

  // ---------------------------------------------------------------------------
  // The trace of a run.

  datatype Event =
    | Sent(request: Request)
    | Loaded(table: string, keys: seq<string>, records: seq<Record>)

  /** `Running` is the state between steps; a run ends `Finished` (exit status 0,
      including the early returns) or `Failed` (an exception, exit status 1). */
  datatype Status = Running | Finished | Failed

  datatype Run = Run(events: seq<Event>, status: Status, db: Database)

  /** The process exit status: `sys.exit(1)` after a failure, 0 otherwise. */
  function ExitCode(r: Run): (code: int)
    ensures code == 1 <==> r.status == Failed
    ensures code == 0 <==> r.status != Failed
  {
    if r.status == Failed then 1 else 0
  }

  function SentAll(requests: seq<Request>): (events: seq<Event>)
    ensures |events| == |requests|
    ensures forall i :: 0 <= i < |requests| ==> events[i] == Sent(requests[i])
  {
    if requests == [] then [] else [Sent(requests[0])] + SentAll(requests[1..])
  }

  /** What the run asks of its collaborators: the answer to
      `get_channel_details(ids)` and to `get_videos(channel_id, limit=50)`, the
      frames of `process_channels` and `process_videos`, and the effect of one
      `load_data` call. */
  datatype Services = Services(
    channelsOf: seq<string> -> Fetch<seq<Channel>>,
    videosOf: string -> Fetch<seq<Video>>,
    channelFrames: seq<Channel> -> Frames,
    videoFrames: seq<Video> -> Frames,
    load: (Database, seq<Record>, string, seq<string>) -> Outcome)

  /** The two DataFrames the normaliser returns, as the loader receives them. */
  datatype Frames = Frames(rows: seq<Record>, metrics: seq<Record>)

  const VideoLimit := 50  // `limit=50` of the per-channel `get_videos` call

  /** The collaborators of a run on `date`: the client talking to its server, the
      normaliser and the upsert loader. */
  function Live(client: Client, date: Date): (svc: Services)
    ensures forall id :: svc.videosOf(id).result.Success? ==> |svc.videosOf(id).result.value| <= VideoLimit
    ensures forall items :: |svc.channelFrames(items).rows| == |items| && |svc.channelFrames(items).metrics| == |items|
    ensures forall items :: |svc.videoFrames(items).rows| == |items| && |svc.videoFrames(items).metrics| == |items|
  {
    Services(
      ids => GetChannelDetails(client, ids),
      id => Videos(client, id, VideoLimit),
      items => Frames(ChannelRecords(ChannelRows(items)), ChannelMetricRecords(ChannelMetrics(items, date))),
      items => Frames(VideoRecords(VideoRows(items)), VideoMetricRecords(VideoMetrics(items, date))),
      (db, batch, name, keys) => Load(db, batch, name, keys))
  }

  /** One `loader.load_data(df, table, keys)` call: an exception ends the run. */
  function LoadStep(svc: Services, st: Run, table: string, keys: seq<string>, records: seq<Record>): (r: Run)
    requires st.status == Running
    ensures r.events == st.events + [Loaded(table, keys, records)]
    ensures r.status == Running || r.status == Failed
    ensures r.status == Failed <==> svc.load(st.db, records, table, keys).result.Failure?
    ensures r.db == svc.load(st.db, records, table, keys).db
  {
    var o := svc.load(st.db, records, table, keys);
    Run(st.events + [Loaded(table, keys, records)], if o.result.Failure? then Failed else Running, o.db)
  }

  /** One pass of the per-channel loop for `channel_id`: fetch its videos, skip it
      when there are none, else load its `videos` and then its `video_daily_metrics`
      frame. The result is `Running` to go on, or `Failed`. */
  function Step(svc: Services, id: string, st: Run): (r: Run)
    requires st.status == Running
    ensures r.status == Running || r.status == Failed
    ensures svc.videosOf(id).result.Failure? ==> r.status == Failed && r.db == st.db
    ensures svc.videosOf(id).result == Success([]) ==> r.status == Running && r.db == st.db
  {
    var v := svc.videosOf(id);
    var st1 := Run(st.events + SentAll(v.sent), Running, st.db);
    if v.result.Failure? then st1.(status := Failed)
    else if v.result.value == [] then st1
    else
      var frames := svc.videoFrames(v.result.value);
      var st2 := LoadStep(svc, st1, "videos", ["video_id"], frames.rows);
      if st2.status != Running then st2
      else LoadStep(svc, st2, "video_daily_metrics", ["video_id", "date"], frames.metrics)
  }

  /** The per-channel loop over `ids[i..]`, from state `st`. */
  function VideoPhase(svc: Services, ids: seq<string>, i: nat, st: Run): (r: Run)
    requires i <= |ids|
    ensures st.status != Running ==> r == st
    ensures r.status == Running || r.status == st.status || r.status == Failed
    decreases |ids| - i
  {
    if i == |ids| || st.status != Running then st
    else VideoPhase(svc, ids, i + 1, Step(svc, ids[i], st))
  }

  /** The `channels` load and then, if it succeeded, the `channel_daily_metrics` load
      of the channels found. */
  function ChannelLoads(svc: Services, items: seq<Channel>, st: Run): (r: Run)
    requires st.status == Running
    ensures r.status == Running || r.status == Failed
    ensures svc.load(st.db, svc.channelFrames(items).rows, "channels", ["channel_id"]).result.Failure? ==>
      r.status == Failed && r.events == st.events + [Loaded("channels", ["channel_id"], svc.channelFrames(items).rows)]
  {
    var frames := svc.channelFrames(items);
    var st1 := LoadStep(svc, st, "channels", ["channel_id"], frames.rows);
    if st1.status != Running then st1
    else LoadStep(svc, st1, "channel_daily_metrics", ["channel_id", "date"], frames.metrics)
  }

  /** `main()` from the channel lookup on, for the parsed `ids`. */
  function Extract(svc: Services, ids: seq<string>, db: Database): (r: Run)
    ensures r.status == Finished || r.status == Failed
    ensures svc.channelsOf(ids).result.Failure? ==> r == Run(SentAll(svc.channelsOf(ids).sent), Failed, db)
    ensures svc.channelsOf(ids).result == Success([]) ==> r == Run(SentAll(svc.channelsOf(ids).sent), Finished, db)
  {
    var ch := svc.channelsOf(ids);
    var st0 := Run(SentAll(ch.sent), Running, db);
    if ch.result.Failure? then st0.(status := Failed)
    else if ch.result.value == [] then st0.(status := Finished)
    else
      var st2 := ChannelLoads(svc, ch.result.value, st0);
      if st2.status != Running then st2
      else
        var st3 := VideoPhase(svc, ids, 0, st2);
        if st3.status == Running then st3.(status := Finished) else st3
  }

  /** `main()`. `env` is `YOUTUBE_CHANNEL_IDS` ("" when unset), `apiKey` is
      `YOUTUBE_API_KEY`, `dbReady` says whether `DataLoader()` finds its credentials,
      `db` is the database before the run and `date` is today. */
  function Main(env: string, apiKey: string, server: Server, dbReady: bool, db: Database, date: Date): (r: Run)
    ensures r.status == Finished || r.status == Failed
    ensures env == "" ==> r == Run([], Finished, db)
    ensures env != "" && apiKey == "" ==> r == Run([], Failed, db)
    ensures env != "" && apiKey != "" && !dbReady ==> r == Run([], Failed, db)
    ensures env != "" && apiKey != "" && dbReady && ParseChannelIds(env) == [] ==> r == Run([], Finished, db)
  {
    if env == "" then Run([], Finished, db)
    else
      var ids := ParseChannelIds(env);
      var c := NewClient(apiKey, server);
      if c.Failure? || !dbReady then Run([], Failed, db)
      else Extract(Live(c.value, date), ids, db)
  }

  /** The exit status of a run is 1 exactly when it failed, and a run that has not
      failed went through the lookup (it sent something) or stopped before it. */
  lemma MainExit(env: string, apiKey: string, server: Server, dbReady: bool, db: Database, date: Date)
    ensures var r := Main(env, apiKey, server, dbReady, db, date);
      (ExitCode(r) == 1 <==> r.status == Failed) && (ExitCode(r) == 0 <==> r.status == Finished)
  {
  }

  /** `main()` over a loader object whose database the run writes. */
  method RunPipeline(env: string, apiKey: string, server: Server, dbReady: bool, loader: DataLoader, date: Date)
    returns (events: seq<Event>, status: Status)
    modifies loader
    ensures Run(events, status, loader.db) == Main(env, apiKey, server, dbReady, old(loader.db), date)
  {
    if env == "" {
      return [], Finished;
    }
    var ids := ParseChannelIds(env);
    var c := NewClient(apiKey, server);
    if c.Failure? || !dbReady {
      return [], Failed;
    }
    events, status := ExtractRun(c.value, ids, loader, date);
  }

  /** `main()` from the channel lookup on, over the loader object. */
  method ExtractRun(client: Client, ids: seq<string>, loader: DataLoader, date: Date)
    returns (events: seq<Event>, status: Status)
    modifies loader
    ensures Run(events, status, loader.db) == Extract(Live(client, date), ids, old(loader.db))
  {
    var ch := GetChannelDetails(client, ids);
    events := SentAll(ch.sent);
    if ch.result.Failure? {
      return events, Failed;
    }
    if ch.result.value == [] {
      return events, Finished;
    }
    events, status := ChannelsRun(client, ch.result.value, loader, events, date);
    if status == Failed {
      return events, Failed;
    }
    events, status := ChannelLoop(client, ids, loader, events, date);
  }

  /** The two channel loads of `main()` over the loader object. */
  method ChannelsRun(client: Client, items: seq<Channel>, loader: DataLoader, events0: seq<Event>, date: Date)
    returns (events: seq<Event>, status: Status)
    modifies loader
    ensures Run(events, status, loader.db) == ChannelLoads(Live(client, date), items, Run(events0, Running, old(loader.db)))
  {
    var channels, channelMetrics := ProcessChannels(items, date);
    var records := ChannelRecords(channels);
    var loaded := loader.LoadData(records, "channels", ["channel_id"]);
    events := events0 + [Loaded("channels", ["channel_id"], records)];
    if loaded.Failure? {
      return events, Failed;
    }
    records := ChannelMetricRecords(channelMetrics);
    loaded := loader.LoadData(records, "channel_daily_metrics", ["channel_id", "date"]);
    events := events + [Loaded("channel_daily_metrics", ["channel_id", "date"], records)];
    status := if loaded.Failure? then Failed else Running;
  }

  /** The `for channel_id in channel_ids` loop, `continue` included. */
  method ChannelLoop(client: Client, ids: seq<string>, loader: DataLoader, events0: seq<Event>, date: Date)
    returns (events: seq<Event>, status: Status)
    modifies loader
    ensures var r := VideoPhase(Live(client, date), ids, 0, Run(events0, Running, old(loader.db)));
      Run(events, status, loader.db) == (if r.status == Running then r.(status := Finished) else r)
  {
    var svc := Live(client, date);
    events := events0;
    ghost var whole := VideoPhase(svc, ids, 0, Run(events, Running, loader.db));
    for i := 0 to |ids|
      invariant VideoPhase(svc, ids, i, Run(events, Running, loader.db)) == whole
    {
      events, status := ChannelStep(client, ids[i], loader, events, date);
      if status == Failed {
        return events, Failed;
      }
    }
    return events, Finished;
  }

  /** The body of that loop for one `channel_id`. */
  method ChannelStep(client: Client, id: string, loader: DataLoader, events0: seq<Event>, date: Date)
    returns (events: seq<Event>, status: Status)
    modifies loader
    ensures Run(events, status, loader.db) == Step(Live(client, date), id, Run(events0, Running, old(loader.db)))
  {
    var found, sent := GetVideos(client, id, VideoLimit);
    events := events0 + SentAll(sent);
    if found.Failure? {
      return events, Failed;
    }
    if found.value == [] {
      return events, Running;
    }
    var videos, videoMetrics := ProcessVideos(found.value, date);
    var records := VideoRecords(videos);
    var loaded := loader.LoadData(records, "videos", ["video_id"]);
    events := events + [Loaded("videos", ["video_id"], records)];
    if loaded.Failure? {
      return events, Failed;
    }
    records := VideoMetricRecords(videoMetrics);
    loaded := loader.LoadData(records, "video_daily_metrics", ["video_id", "date"]);
    events := events + [Loaded("video_daily_metrics", ["video_id", "date"], records)];
    status := if loaded.Failure? then Failed else Running;
  }

  // ---------------------------------------------------------------------------
  // The order of the loads.

  /** The tables of the loader calls in `events`, in order. */
  function LoadTables(events: seq<Event>): (ts: seq<string>)
    ensures |ts| <= |events|
  {
    if events == [] then []
    else (if events[0].Loaded? then [events[0].table] else []) + LoadTables(events[1..])
  }

  lemma {:induction false} LoadTablesAppend(a: seq<Event>, b: seq<Event>)
    ensures LoadTables(a + b) == LoadTables(a) + LoadTables(b)
    decreases |a|
  {
    if a == [] {
      assert a + b == b;
    } else {
      assert (a + b)[0] == a[0];
      assert (a + b)[1..] == a[1..] + b;
      LoadTablesAppend(a[1..], b);
    }
  }

  lemma {:induction false} LoadTablesSent(requests: seq<Request>)
    ensures LoadTables(SentAll(requests)) == []
    decreases |requests|
  {
    if requests != [] {
      LoadTablesSent(requests[1..]);
    }
  }

  /** `videos, video_daily_metrics`, repeated. */
  predicate Pairs(ts: seq<string>)
    decreases |ts|
  {
    ts == [] || (|ts| >= 2 && ts[0] == "videos" && ts[1] == "video_daily_metrics" && Pairs(ts[2..]))
  }

  /** Complete pairs, possibly followed by a `videos` load whose call failed. */
  predicate PairsThenFailure(ts: seq<string>) {
    Pairs(ts) || (|ts| >= 1 && ts[|ts| - 1] == "videos" && Pairs(ts[..|ts| - 1]))
  }

  /** One more pair in front keeps the shape. */
  lemma PairsCons(tail: seq<string>)
    ensures var ts := ["videos", "video_daily_metrics"] + tail;
      (Pairs(tail) ==> Pairs(ts)) && (PairsThenFailure(tail) ==> PairsThenFailure(ts))
  {
    var ts := ["videos", "video_daily_metrics"] + tail;
    assert ts[2..] == tail;
    if !Pairs(tail) && PairsThenFailure(tail) {
      assert ts[..|ts| - 1] == ["videos", "video_daily_metrics"] + tail[..|tail| - 1];
      assert ts[..|ts| - 1][2..] == tail[..|tail| - 1];
    }
  }

  /** The events a step adds after `st`. */
  function Added(st: Run, r: Run): seq<Event>
    requires |st.events| <= |r.events|
  {
    r.events[|st.events|..]
  }

  predicate Extends(st: Run, r: Run) {
    |st.events| <= |r.events| && r.events[..|st.events|] == st.events
  }

  /** The events added from `st` to `r` through `mid`. */
  lemma AddedChain(st: Run, mid: Run, r: Run)
    requires Extends(st, mid) && Extends(mid, r)
    ensures Extends(st, r)
    ensures Added(st, r) == Added(st, mid) + Added(mid, r)
    ensures LoadTables(Added(st, r)) == LoadTables(Added(st, mid)) + LoadTables(Added(mid, r))
  {
    assert Added(st, r) == Added(st, mid) + Added(mid, r);
    LoadTablesAppend(Added(st, mid), Added(mid, r));
  }

  /** What one channel adds to the trace: its requests, then no load (no videos, or
      the fetch failed), or a `videos` load that failed, or both loads. Only the last
      two touch the database, and only a failed step ends with a lone `videos`. */
  lemma StepLoads(svc: Services, id: string, st: Run)
    requires st.status == Running
    ensures var r := Step(svc, id, st); var ts := LoadTables(Added(st, r));
      && Extends(st, r)
      && (ts == [] || ts == ["videos"] || ts == ["videos", "video_daily_metrics"])
      && (ts == ["videos"] ==> r.status == Failed)
      && (svc.videosOf(id).result == Success([]) ==>
            r == Run(st.events + SentAll(svc.videosOf(id).sent), Running, st.db))
  {
    var v := svc.videosOf(id);
    var sent := SentAll(v.sent);
    LoadTablesSent(v.sent);
    var r := Step(svc, id, st);
    if v.result.Failure? || v.result.value == [] {
      assert Added(st, r) == sent;
    } else {
      var st1 := Run(st.events + sent, Running, st.db);
      var frames := svc.videoFrames(v.result.value);
      var st2 := LoadStep(svc, st1, "videos", ["video_id"], frames.rows);
      var lv := Loaded("videos", ["video_id"], frames.rows);
      if st2.status != Running {
        assert Added(st, r) == sent + [lv];
        LoadTablesAppend(sent, [lv]);
      } else {
        var lm := Loaded("video_daily_metrics", ["video_id", "date"], frames.metrics);
        assert Added(st, r) == sent + [lv, lm];
        LoadTablesAppend(sent, [lv, lm]);
      }
    }
  }

  /** One channel's loads followed by the loads of the channels after it. */
  lemma ShapeJoin(head: seq<string>, tail: seq<string>)
    requires head == [] || head == ["videos"] || head == ["videos", "video_daily_metrics"]
    requires head == ["videos"] ==> tail == []
    requires PairsThenFailure(tail)
    ensures PairsThenFailure(head + tail)
    ensures Pairs(tail) && head != ["videos"] ==> Pairs(head + tail)
  {
    if head == [] {
      assert head + tail == tail;
    } else if head == ["videos"] {
      assert head + tail == head && head[..0] == [];
    } else {
      PairsCons(tail);
    }
  }

  /** The loads of the per-channel loop come in `videos, video_daily_metrics` pairs;
      only a failed run can end with a lone `videos` load. */
  lemma {:induction false} VideoPhaseLoads(svc: Services, ids: seq<string>, i: nat, st: Run)
    requires i <= |ids|
    ensures var r := VideoPhase(svc, ids, i, st);
      && Extends(st, r)
      && PairsThenFailure(LoadTables(Added(st, r)))
      && (r.status == Running ==> Pairs(LoadTables(Added(st, r))))
    decreases |ids| - i
  {
    var r := VideoPhase(svc, ids, i, st);
    if i < |ids| && st.status == Running {
      var st1 := Step(svc, ids[i], st);
      assert r == VideoPhase(svc, ids, i + 1, st1);
      StepLoads(svc, ids[i], st);
      VideoPhaseLoads(svc, ids, i + 1, st1);
      AddedChain(st, st1, r);
      var head := LoadTables(Added(st, st1));
      var tail := LoadTables(Added(st1, r));
      if st1.status != Running {
        assert r == st1 && Added(st1, r) == [];
        assert tail == [];
      }
      ShapeJoin(head, tail);
      assert LoadTables(Added(st, r)) == head + tail;
    } else {
      assert Added(st, r) == [];
    }
  }

  /** The channel half of a run: what it appends before the per-channel loop. */
  lemma ExtractStart(svc: Services, ids: seq<string>, db: Database)
    ensures var ch := svc.channelsOf(ids);
      var r := Extract(svc, ids, db);
      && (ch.result.Failure? || ch.result == Success([]) ==> LoadTables(r.events) == [])
      && (ch.result.Success? && ch.result.value != [] ==>
            var st0 := Run(SentAll(ch.sent), Running, db);
            var st1 := LoadStep(svc, st0, "channels", ["channel_id"], svc.channelFrames(ch.result.value).rows);
            && (st1.status != Running ==> LoadTables(r.events) == ["channels"] && r.status == Failed)
            && (st1.status == Running ==>
                  var st2 := LoadStep(svc, st1, "channel_daily_metrics", ["channel_id", "date"],
                                      svc.channelFrames(ch.result.value).metrics);
                  var st3 := VideoPhase(svc, ids, 0, st2);
                  && r.events == st3.events
                  && (r.status == Finished <==> st3.status == Running)
                  && LoadTables(st2.events) == ["channels", "channel_daily_metrics"]))
  {
    var ch := svc.channelsOf(ids);
    var sent := SentAll(ch.sent);
    LoadTablesSent(ch.sent);
    if ch.result.Success? && ch.result.value != [] {
      var st0 := Run(sent, Running, db);
      var recs := svc.channelFrames(ch.result.value).rows;
      var lc := Loaded("channels", ["channel_id"], recs);
      var st1 := LoadStep(svc, st0, "channels", ["channel_id"], recs);
      LoadTablesAppend(sent, [lc]);
      if st1.status == Running {
        var mrecs := svc.channelFrames(ch.result.value).metrics;
        var lm := Loaded("channel_daily_metrics", ["channel_id", "date"], mrecs);
        assert LoadStep(svc, st1, "channel_daily_metrics", ["channel_id", "date"], mrecs).events == sent + [lc, lm];
        LoadTablesAppend(sent, [lc, lm]);
      }
    }
  }

  /** The loads of a run: `channels`, then `channel_daily_metrics`, then the video
      loads in `videos, video_daily_metrics` pairs. A run that finds no channel loads
      nothing; a run in which a load fails ends with that load. */
  lemma ExtractLoads(svc: Services, ids: seq<string>, db: Database)
    ensures var r := Extract(svc, ids, db); var ts := LoadTables(r.events);
      && (|| ts == []
          || (ts == ["channels"] && r.status == Failed)
          || (|ts| >= 2 && ts[0] == "channels" && ts[1] == "channel_daily_metrics" && PairsThenFailure(ts[2..])))
      && (r.status == Finished && ts != [] ==> |ts| >= 2 && Pairs(ts[2..]))
  {
    ExtractStart(svc, ids, db);
    var ch := svc.channelsOf(ids);
    if ch.result.Success? && ch.result.value != [] {
      var st0 := Run(SentAll(ch.sent), Running, db);
      var st1 := LoadStep(svc, st0, "channels", ["channel_id"], svc.channelFrames(ch.result.value).rows);
      if st1.status == Running {
        var st2 := LoadStep(svc, st1, "channel_daily_metrics", ["channel_id", "date"],
                            svc.channelFrames(ch.result.value).metrics);
        VideoPhaseLoads(svc, ids, 0, st2);
        var st3 := VideoPhase(svc, ids, 0, st2);
        assert st3.events == st2.events + Added(st2, st3);
        LoadTablesAppend(st2.events, Added(st2, st3));
        var ts := LoadTables(st3.events);
        assert ts[2..] == LoadTables(Added(st2, st3));
      }
    }
  }

  /** No load of `videos` or `video_daily_metrics` comes before the loads of
      `channels` and `channel_daily_metrics`. */
  predicate ChannelsFirst(ts: seq<string>) {
    forall j :: 0 <= j < |ts| && (ts[j] == "videos" || ts[j] == "video_daily_metrics") ==>
      2 <= j && ts[0] == "channels" && ts[1] == "channel_daily_metrics"
  }

  /** Every load of `videos` is directly followed by the load of `video_daily_metrics`. */
  predicate VideosPaired(ts: seq<string>) {
    forall j :: 0 <= j < |ts| && ts[j] == "videos" ==> j + 1 < |ts| && ts[j + 1] == "video_daily_metrics"
  }

  /** The order that `ExtractLoads` describes puts the channel tables first and, in a
      finished run, completes every video pair. */
  lemma OrderOfShape(ts: seq<string>, finished: bool)
    requires || ts == []
             || (ts == ["channels"] && !finished)
             || (|ts| >= 2 && ts[0] == "channels" && ts[1] == "channel_daily_metrics" && PairsThenFailure(ts[2..]))
    requires finished && ts != [] ==> |ts| >= 2 && Pairs(ts[2..])
    ensures ChannelsFirst(ts)
    ensures finished ==> VideosPaired(ts)
  {
    if |ts| >= 2 && ts[0] == "channels" {
      var tail := ts[2..];
      forall j | 2 <= j < |ts|
        ensures ts[j] == "videos" || ts[j] == "video_daily_metrics"
        ensures ts[j] == "videos" && (finished || j + 1 < |ts|) ==> j + 1 < |ts| && ts[j + 1] == "video_daily_metrics"
      {
        assert tail[j - 2] == ts[j];
        PairsShape(tail, j - 2);
        if j + 1 < |ts| {
          assert tail[j - 1] == ts[j + 1];
        }
      }
      if finished {
        assert Pairs(tail);
        forall j | 0 <= j < |ts| && ts[j] == "videos"
          ensures j + 1 < |ts| && ts[j + 1] == "video_daily_metrics"
        {
          assert j >= 2;
        }
      }
    }
  }

  /** In every run the channel tables are loaded before any video table, and in a
      run that finishes each `videos` load is followed by its `video_daily_metrics`. */
  lemma MainLoads(env: string, apiKey: string, server: Server, dbReady: bool, db: Database, date: Date)
    ensures var r := Main(env, apiKey, server, dbReady, db, date); var ts := LoadTables(r.events);
      ChannelsFirst(ts) && (r.status == Finished ==> VideosPaired(ts))
  {
    var r := Main(env, apiKey, server, dbReady, db, date);
    if env != "" && apiKey != "" && dbReady {
      var svc := Live(Client(apiKey, server), date);
      assert r == Extract(svc, ParseChannelIds(env), db);
      ExtractLoads(svc, ParseChannelIds(env), db);
      OrderOfShape(LoadTables(r.events), r.status == Finished);
    }
  }

  /** Inside complete pairs, every `videos` is directly followed by
      `video_daily_metrics`, and no channel table occurs. */
  lemma {:induction false} PairsShape(ts: seq<string>, j: nat)
    requires PairsThenFailure(ts) && j < |ts|
    ensures ts[j] == "videos" || ts[j] == "video_daily_metrics"
    ensures ts[j] == "videos" && (Pairs(ts) || j + 1 < |ts|) ==> j + 1 < |ts| && ts[j + 1] == "video_daily_metrics"
    decreases |ts|
  {
    if Pairs(ts) {
      PairsAt(ts, j);
      if j + 1 < |ts| {
        PairsAt(ts, j + 1);
      }
    } else {
      var front := ts[..|ts| - 1];
      if j < |front| {
        PairsAt(front, j);
        if j + 1 < |front| {
          PairsAt(front, j + 1);
          assert ts[j + 1] == front[j + 1];
        }
      }
    }
  }

  lemma {:induction false} PairsAt(ts: seq<string>, j: nat)
    requires Pairs(ts) && j < |ts|
    ensures ts[j] == (if j % 2 == 0 then "videos" else "video_daily_metrics")
    ensures j % 2 == 0 ==> j + 1 < |ts|
    decreases |ts|
  {
    if j >= 2 {
      PairsAt(ts[2..], j - 2);
    }
  }

  /** Every load targets one of the four tables with its natural key. */
  predicate NaturalKeys(events: seq<Event>) {
    forall i :: 0 <= i < |events| && events[i].Loaded? ==>
      || (events[i].table == "channels" && events[i].keys == ["channel_id"])
      || (events[i].table == "channel_daily_metrics" && events[i].keys == ["channel_id", "date"])
      || (events[i].table == "videos" && events[i].keys == ["video_id"])
      || (events[i].table == "video_daily_metrics" && events[i].keys == ["video_id", "date"])
  }

  lemma StepKeys(svc: Services, id: string, st: Run)
    requires st.status == Running && NaturalKeys(st.events)
    ensures NaturalKeys(Step(svc, id, st).events)
  {
    var v := svc.videosOf(id);
    var st1 := Run(st.events + SentAll(v.sent), Running, st.db);
    assert NaturalKeys(st1.events);
    if v.result.Success? && v.result.value != [] {
      var frames := svc.videoFrames(v.result.value);
      var st2 := LoadStep(svc, st1, "videos", ["video_id"], frames.rows);
      assert NaturalKeys(st2.events);
      if st2.status == Running {
        assert NaturalKeys(LoadStep(svc, st2, "video_daily_metrics", ["video_id", "date"], frames.metrics).events);
      }
    }
  }

  lemma {:induction false} VideoPhaseKeys(svc: Services, ids: seq<string>, i: nat, st: Run)
    requires i <= |ids| && NaturalKeys(st.events)
    ensures NaturalKeys(VideoPhase(svc, ids, i, st).events)
    decreases |ids| - i
  {
    if i < |ids| && st.status == Running {
      StepKeys(svc, ids[i], st);
      VideoPhaseKeys(svc, ids, i + 1, Step(svc, ids[i], st));
    }
  }

  lemma ExtractKeys(svc: Services, ids: seq<string>, db: Database)
    ensures NaturalKeys(Extract(svc, ids, db).events)
  {
    var ch := svc.channelsOf(ids);
    var st0 := Run(SentAll(ch.sent), Running, db);
    assert NaturalKeys(st0.events);
    if ch.result.Success? && ch.result.value != [] {
      var st1 := LoadStep(svc, st0, "channels", ["channel_id"], svc.channelFrames(ch.result.value).rows);
      assert NaturalKeys(st1.events);
      if st1.status == Running {
        var st2 := LoadStep(svc, st1, "channel_daily_metrics", ["channel_id", "date"],
                            svc.channelFrames(ch.result.value).metrics);
        assert NaturalKeys(st2.events);
        VideoPhaseKeys(svc, ids, 0, st2);
      }
    }
  }

  lemma MainKeys(env: string, apiKey: string, server: Server, dbReady: bool, db: Database, date: Date)
    ensures NaturalKeys(Main(env, apiKey, server, dbReady, db, date).events)
  {
    if env != "" && apiKey != "" && dbReady {
      ExtractKeys(Live(Client(apiKey, server), date), ParseChannelIds(env), db);
    }
  }

  // ---------------------------------------------------------------------------
  // Early exits and skipped channels.

  /** When the channel lookup finds nothing, the run sends that one request (none
      when no id was parsed) and loads nothing. */
  lemma NoChannelsNoLoads(env: string, apiKey: string, server: Server, dbReady: bool, db: Database, date: Date)
    requires env != "" && apiKey != "" && dbReady
    requires GetChannelDetails(Client(apiKey, server), ParseChannelIds(env)).result == Success([])
    ensures var r := Main(env, apiKey, server, dbReady, db, date);
      && r.status == Finished && r.db == db
      && r.events == SentAll(GetChannelDetails(Client(apiKey, server), ParseChannelIds(env)).sent)
      && LoadTables(r.events) == []
      && |r.events| <= 1
  {
    LoadTablesSent(GetChannelDetails(Client(apiKey, server), ParseChannelIds(env)).sent);
  }

  /** A channel without videos adds its requests to the trace, loads nothing, and the
      loop goes on with the next channel. */
  lemma SkipChannel(client: Client, date: Date, ids: seq<string>, i: nat, st: Run)
    requires i < |ids| && st.status == Running
    requires Videos(client, ids[i], VideoLimit).result == Success([])
    ensures VideoPhase(Live(client, date), ids, i, st) ==
      VideoPhase(Live(client, date), ids, i + 1, Run(st.events + SentAll(Videos(client, ids[i], VideoLimit).sent), Running, st.db))
  {
    StepLoads(Live(client, date), ids[i], st);
  }

  // ---------------------------------------------------------------------------
  // The database a run leaves behind.

  /** The database after performing the loader calls of `events` in order. */
  function Replay(load: (Database, seq<Record>, string, seq<string>) -> Outcome, db: Database, events: seq<Event>): Database
    decreases |events|
  {
    if events == [] then db
    else
      var next := if events[0].Loaded? then load(db, events[0].records, events[0].table, events[0].keys).db else db;
      Replay(load, next, events[1..])
  }

  lemma {:induction false} ReplayAppend(load: (Database, seq<Record>, string, seq<string>) -> Outcome, db: Database, a: seq<Event>, b: seq<Event>)
    ensures Replay(load, db, a + b) == Replay(load, Replay(load, db, a), b)
    decreases |a|
  {
    if a == [] {
      assert a + b == b;
    } else {
      assert (a + b)[0] == a[0];
      assert (a + b)[1..] == a[1..] + b;
      var next := if a[0].Loaded? then load(db, a[0].records, a[0].table, a[0].keys).db else db;
      ReplayAppend(load, next, a[1..], b);
    }
  }

  lemma {:induction false} ReplaySent(load: (Database, seq<Record>, string, seq<string>) -> Outcome, db: Database, requests: seq<Request>)
    ensures Replay(load, db, SentAll(requests)) == db
    decreases |requests|
  {
    if requests != [] {
      ReplaySent(load, db, requests[1..]);
    }
  }

  /** A load step changes the database as replaying its one event does. */
  lemma ReplayLoadStep(svc: Services, st: Run, table: string, keys: seq<string>, records: seq<Record>)
    requires st.status == Running
    ensures var r := LoadStep(svc, st, table, keys, records);
      Replay(svc.load, st.db, r.events[|st.events|..]) == r.db
  {
    var r := LoadStep(svc, st, table, keys, records);
    assert r.events[|st.events|..] == [Loaded(table, keys, records)];
  }

  /** `r` continues the trace of `st`, and replaying what it adds turns the database
      of `st` into that of `r`. */
  predicate Replays(load: (Database, seq<Record>, string, seq<string>) -> Outcome, st: Run, r: Run) {
    Extends(st, r) && Replay(load, st.db, Added(st, r)) == r.db
  }

  lemma ReplaysSelf(load: (Database, seq<Record>, string, seq<string>) -> Outcome, st: Run)
    ensures Replays(load, st, st)
  {
    assert Added(st, st) == [];
  }

  /** Replaying two consecutive stretches of a trace from `st` to `r` to `q`. */
  lemma ReplayChain(load: (Database, seq<Record>, string, seq<string>) -> Outcome, st: Run, r: Run, q: Run)
    requires Replays(load, st, r) && Replays(load, r, q)
    ensures Replays(load, st, q)
  {
    assert Added(st, q) == Added(st, r) + Added(r, q);
    ReplayAppend(load, st.db, Added(st, r), Added(r, q));
  }

  lemma StepReplay(svc: Services, id: string, st: Run)
    requires st.status == Running
    ensures var r := Step(svc, id, st);
      Replays(svc.load, st, r)
  {
    var v := svc.videosOf(id);
    var st1 := Run(st.events + SentAll(v.sent), Running, st.db);
    ReplaySent(svc.load, st.db, v.sent);
    assert Extends(st, st1) && Added(st, st1) == SentAll(v.sent);
    if v.result.Success? && v.result.value != [] {
      var frames := svc.videoFrames(v.result.value);
      var st2 := LoadStep(svc, st1, "videos", ["video_id"], frames.rows);
      ReplayLoadStep(svc, st1, "videos", ["video_id"], frames.rows);
      ReplayChain(svc.load, st, st1, st2);
      if st2.status == Running {
        ReplayLoadStep(svc, st2, "video_daily_metrics", ["video_id", "date"], frames.metrics);
        ReplayChain(svc.load, st, st2, LoadStep(svc, st2, "video_daily_metrics", ["video_id", "date"], frames.metrics));
      }
    }
  }

  lemma {:induction false} VideoPhaseReplay(svc: Services, ids: seq<string>, i: nat, st: Run)
    requires i <= |ids|
    ensures var r := VideoPhase(svc, ids, i, st);
      Replays(svc.load, st, r)
    decreases |ids| - i
  {
    var r := VideoPhase(svc, ids, i, st);
    if i < |ids| && st.status == Running {
      var st1 := Step(svc, ids[i], st);
      StepReplay(svc, ids[i], st);
      VideoPhaseReplay(svc, ids, i + 1, st1);
      ReplayChain(svc.load, st, st1, r);
    } else {
      ReplaysSelf(svc.load, st);
    }
  }

  lemma ExtractReplay(svc: Services, ids: seq<string>, db: Database)
    ensures var r := Extract(svc, ids, db);
      r.db == Replay(svc.load, db, r.events)
  {
    var r := Extract(svc, ids, db);
    var ch := svc.channelsOf(ids);
    var st := Run([], Running, db);
    var st0 := Run(SentAll(ch.sent), Running, db);
    ReplaySent(svc.load, db, ch.sent);
    assert Extends(st, st0) && Added(st, st0) == st0.events;
    if ch.result.Success? && ch.result.value != [] {
      var st1 := LoadStep(svc, st0, "channels", ["channel_id"], svc.channelFrames(ch.result.value).rows);
      ReplayLoadStep(svc, st0, "channels", ["channel_id"], svc.channelFrames(ch.result.value).rows);
      ReplayChain(svc.load, st, st0, st1);
      if st1.status == Running {
        var st2 := LoadStep(svc, st1, "channel_daily_metrics", ["channel_id", "date"],
                            svc.channelFrames(ch.result.value).metrics);
        ReplayLoadStep(svc, st1, "channel_daily_metrics", ["channel_id", "date"],
                       svc.channelFrames(ch.result.value).metrics);
        ReplayChain(svc.load, st, st1, st2);
        VideoPhaseReplay(svc, ids, 0, st2);
        var st3 := VideoPhase(svc, ids, 0, st2);
        ReplayChain(svc.load, st, st2, st3);
        assert Added(st, st3) == st3.events;
      } else {
        assert Added(st, st1) == st1.events;
      }
    }
  }

  /** The database a run leaves is the one its recorded loader calls produce, in
      order, from the database it started with. */
  lemma MainReplay(env: string, apiKey: string, server: Server, dbReady: bool, db: Database, date: Date)
    ensures var r := Main(env, apiKey, server, dbReady, db, date);
      r.db == Replay((d, b, n, k) => Load(d, b, n, k), db, r.events)
  {
    if env != "" && apiKey != "" && dbReady {
      var svc := Live(Client(apiKey, server), date);
      ExtractReplay(svc, ParseChannelIds(env), db);
      assert svc.load == (d, b, n, k) => Load(d, b, n, k);
    }
  }

  // ---------------------------------------------------------------------------
  // When a run fails.

  /** Every loader call of `events`, performed in order from `db`, returns without
      an exception. */
  predicate LoadsOk(load: (Database, seq<Record>, string, seq<string>) -> Outcome, db: Database, events: seq<Event>)
    decreases |events|
  {
    if events == [] then true
    else if events[0].Loaded? then
      var o := load(db, events[0].records, events[0].table, events[0].keys);
      o.result.Success? && LoadsOk(load, o.db, events[1..])
    else LoadsOk(load, db, events[1..])
  }

  lemma {:induction false} LoadsOkAppend(load: (Database, seq<Record>, string, seq<string>) -> Outcome, db: Database, a: seq<Event>, b: seq<Event>)
    ensures LoadsOk(load, db, a + b) == (LoadsOk(load, db, a) && LoadsOk(load, Replay(load, db, a), b))
    decreases |a|
  {
    if a == [] {
      assert a + b == b;
    } else {
      assert (a + b)[0] == a[0];
      assert (a + b)[1..] == a[1..] + b;
      var next := if a[0].Loaded? then load(db, a[0].records, a[0].table, a[0].keys).db else db;
      LoadsOkAppend(load, next, a[1..], b);
    }
  }

  lemma {:induction false} LoadsOkSent(load: (Database, seq<Record>, string, seq<string>) -> Outcome, db: Database, requests: seq<Request>)
    ensures LoadsOk(load, db, SentAll(requests))
    decreases |requests|
  {
    if requests != [] {
      LoadsOkSent(load, db, requests[1..]);
    }
  }

  /** The loader calls from `st` to `q` all succeed exactly when those from `st` to
      `r` and those from `r` to `q` do. */
  lemma LoadsOkChain(load: (Database, seq<Record>, string, seq<string>) -> Outcome, st: Run, r: Run, q: Run)
    requires Replays(load, st, r) && Extends(r, q)
    ensures Extends(st, q)
    ensures LoadsOk(load, st.db, Added(st, q)) == (LoadsOk(load, st.db, Added(st, r)) && LoadsOk(load, r.db, Added(r, q)))
  {
    assert Added(st, q) == Added(st, r) + Added(r, q);
    LoadsOkAppend(load, st.db, Added(st, r), Added(r, q));
  }

  /** The loader call of one load step succeeds exactly when the run goes on. */
  lemma LoadStepOutcome(svc: Services, st: Run, table: string, keys: seq<string>, records: seq<Record>)
    requires st.status == Running
    ensures var r := LoadStep(svc, st, table, keys, records);
      && Replays(svc.load, st, r)
      && (r.status == Running <==> LoadsOk(svc.load, st.db, Added(st, r)))
  {
    var r := LoadStep(svc, st, table, keys, records);
    assert Added(st, r) == [Loaded(table, keys, records)];
    assert Added(st, r)[1..] == [];
  }

  /** A pass of the per-channel loop goes on exactly when its `get_videos` call and
      all its loader calls succeed. */
  lemma StepOutcome(svc: Services, id: string, st: Run)
    requires st.status == Running
    ensures var r := Step(svc, id, st);
      && Extends(st, r)
      && (r.status == Running <==> svc.videosOf(id).result.Success? && LoadsOk(svc.load, st.db, Added(st, r)))
  {
    var v := svc.videosOf(id);
    var st1 := Run(st.events + SentAll(v.sent), Running, st.db);
    ReplaySent(svc.load, st.db, v.sent);
    LoadsOkSent(svc.load, st.db, v.sent);
    assert Extends(st, st1) && Added(st, st1) == SentAll(v.sent);
    if v.result.Success? && v.result.value != [] {
      var frames := svc.videoFrames(v.result.value);
      var st2 := LoadStep(svc, st1, "videos", ["video_id"], frames.rows);
      LoadStepOutcome(svc, st1, "videos", ["video_id"], frames.rows);
      LoadsOkChain(svc.load, st, st1, st2);
      if st2.status == Running {
        var st3 := LoadStep(svc, st2, "video_daily_metrics", ["video_id", "date"], frames.metrics);
        ReplayChain(svc.load, st, st1, st2);
        LoadStepOutcome(svc, st2, "video_daily_metrics", ["video_id", "date"], frames.metrics);
        LoadsOkChain(svc.load, st, st2, st3);
      }
    }
  }

  /** The `get_videos` calls for `ids[i..]` all succeed. */
  predicate AllFetched(svc: Services, ids: seq<string>, i: nat)
    requires i <= |ids|
    decreases |ids| - i
  {
    i == |ids| || (svc.videosOf(ids[i]).result.Success? && AllFetched(svc, ids, i + 1))
  }

  lemma {:induction false} AllFetchedAt(svc: Services, ids: seq<string>, i: nat)
    requires i <= |ids|
    ensures AllFetched(svc, ids, i) <==> forall j :: i <= j < |ids| ==> svc.videosOf(ids[j]).result.Success?
    decreases |ids| - i
  {
    if i < |ids| {
      AllFetchedAt(svc, ids, i + 1);
    }
  }

  /** The per-channel loop ends still running exactly when every channel's
      `get_videos` call and every loader call of the loop succeed. */
  lemma {:induction false} VideoPhaseOutcome(svc: Services, ids: seq<string>, i: nat, st: Run)
    requires i <= |ids| && st.status == Running
    ensures var r := VideoPhase(svc, ids, i, st);
      && Extends(st, r)
      && (r.status == Running <==> AllFetched(svc, ids, i) && LoadsOk(svc.load, st.db, Added(st, r)))
    decreases |ids| - i
  {
    var r := VideoPhase(svc, ids, i, st);
    if i == |ids| {
      assert Added(st, r) == [];
    } else {
      var st1 := Step(svc, ids[i], st);
      StepOutcome(svc, ids[i], st);
      StepReplay(svc, ids[i], st);
      if st1.status == Running {
        VideoPhaseOutcome(svc, ids, i + 1, st1);
        LoadsOkChain(svc.load, st, st1, r);
      }
    }
  }

  /** The channel loads leave the run going exactly when both loader calls succeed. */
  lemma ChannelLoadsOutcome(svc: Services, items: seq<Channel>, st: Run)
    requires st.status == Running
    ensures var r := ChannelLoads(svc, items, st);
      && Replays(svc.load, st, r)
      && (r.status == Running <==> LoadsOk(svc.load, st.db, Added(st, r)))
  {
    var frames := svc.channelFrames(items);
    var st1 := LoadStep(svc, st, "channels", ["channel_id"], frames.rows);
    LoadStepOutcome(svc, st, "channels", ["channel_id"], frames.rows);
    if st1.status == Running {
      var st2 := LoadStep(svc, st1, "channel_daily_metrics", ["channel_id", "date"], frames.metrics);
      LoadStepOutcome(svc, st1, "channel_daily_metrics", ["channel_id", "date"], frames.metrics);
      LoadsOkChain(svc.load, st, st1, st2);
      ReplayChain(svc.load, st, st1, st2);
    }
  }

  /** From the lookup on, a run finishes exactly when every call it makes succeeds:
      the channel lookup, the `get_videos` call of every configured channel (when
      some channel was found) and every loader call it records. */
  lemma ExtractOutcome(svc: Services, ids: seq<string>, db: Database)
    ensures var ch := svc.channelsOf(ids); var r := Extract(svc, ids, db);
      r.status == Finished <==>
        && ch.result.Success?
        && (ch.result.value != [] ==> forall j :: 0 <= j < |ids| ==> svc.videosOf(ids[j]).result.Success?)
        && LoadsOk(svc.load, db, r.events)
  {
    var r := Extract(svc, ids, db);
    var ch := svc.channelsOf(ids);
    var st := Run([], Running, db);
    var st0 := Run(SentAll(ch.sent), Running, db);
    ReplaySent(svc.load, db, ch.sent);
    LoadsOkSent(svc.load, db, ch.sent);
    assert Extends(st, st0) && Added(st, st0) == st0.events;
    if ch.result.Success? && ch.result.value != [] {
      var st2 := ChannelLoads(svc, ch.result.value, st0);
      ChannelLoadsOutcome(svc, ch.result.value, st0);
      LoadsOkChain(svc.load, st, st0, st2);
      if st2.status == Running {
        ReplayChain(svc.load, st, st0, st2);
        var st3 := VideoPhase(svc, ids, 0, st2);
        VideoPhaseOutcome(svc, ids, 0, st2);
        AllFetchedAt(svc, ids, 0);
        LoadsOkChain(svc.load, st, st2, st3);
        assert Added(st, st3) == st3.events;
      } else {
        assert Added(st, st2) == st2.events;
      }
    }
  }

  /** `main()` exits with status 0 exactly when it stops for want of channel ids or
      when the API key and the database credentials are there and every call it makes
      succeeds: the channel lookup, each configured channel's `get_videos` (once a
      channel was found) and each `load_data`. */
  lemma MainOutcome(env: string, apiKey: string, server: Server, dbReady: bool, db: Database, date: Date)
    ensures var r := Main(env, apiKey, server, dbReady, db, date);
      var client := Client(apiKey, server);
      var ids := ParseChannelIds(env);
      var ch := GetChannelDetails(client, ids);
      ExitCode(r) == 0 <==>
        || env == ""
        || (&& apiKey != "" && dbReady
            && ch.result.Success?
            && (ch.result.value != [] ==> forall j :: 0 <= j < |ids| ==> Videos(client, ids[j], VideoLimit).result.Success?)
            && LoadsOk((d, b, n, k) => Load(d, b, n, k), db, r.events))
  {
    if env != "" && apiKey != "" && dbReady {
      LiveOutcome(Client(apiKey, server), date, ParseChannelIds(env), db);
    }
  }

  /** `ExtractOutcome` for the live collaborators. */
  lemma LiveOutcome(client: Client, date: Date, ids: seq<string>, db: Database)
    ensures var r := Extract(Live(client, date), ids, db);
      var ch := GetChannelDetails(client, ids);
      r.status == Finished <==>
        && ch.result.Success?
        && (ch.result.value != [] ==> forall j :: 0 <= j < |ids| ==> Videos(client, ids[j], VideoLimit).result.Success?)
        && LoadsOk((d, b, n, k) => Load(d, b, n, k), db, r.events)
  {
    var svc := Live(client, date);
    ExtractOutcome(svc, ids, db);
    assert svc.load == (d, b, n, k) => Load(d, b, n, k);
  }
}
