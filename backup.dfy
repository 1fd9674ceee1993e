/** `FacebookConn`: a graph API connection holding the access token, the HTTP transport
    and the JSON decoder, with the operations the backup script is made of. */
module Backup {
  import opened Values
  import opened Http
  import opened Graph
  import opened Paging
  import opened Paths
  import opened LocalFs
  import opened Download

  const MeEdge: string := "/me"
  const UploadedPhotosEdge: string := "/me/photos/uploaded"
  const TaggedPhotosEdge: string := "/me/photos"
  const UploadedVideosEdge: string := "/me/videos/uploaded"
  const TaggedVideosEdge: string := "/me/videos"
  const PhotoFields: string := "source,created_time,updated_time,name,from,album"
  const VideoFields: string := "source,created_time,updated_time,name,from"

  /** A caller's query-parameter dict, which `graph_get` and `graph_get_all` update in
      place. */
  class QueryParams {
    var entries: Params

    constructor (entries: Params)
      ensures this.entries == entries
    {
      this.entries := entries;
    }
  }

  /** The query a call starts from: the caller's dict, or a fresh empty one. */
  function StartQuery(params: QueryParams?): Params
    reads params
  {
    if params == null then map[] else params.entries
  }

  lemma AppendAssoc(a: seq<Request>, b: seq<Request>, c: seq<Request>)
    ensures (a + b) + c == a + (b + c)
  {
  }

  class FacebookConn {
    var accessToken: string
    const http: Transport
    const decode: Decoder

    constructor (accessToken: string, http: Transport, decode: Decoder)
      ensures this.accessToken == accessToken && this.http == http && this.decode == decode
    {
      this.accessToken := accessToken;
      this.http := http;
      this.decode := decode;
    }

    /** `set_access_token`: only the token changes. */
    method SetAccessToken(accessToken: string)
      modifies this
      ensures this.accessToken == accessToken
    {
      this.accessToken := accessToken;
    }

    /** `get_web_file(uri)`: one GET for the file; its content when the reply is a 200
        with a non-empty body, None otherwise. */
    method GetWebFile(uri: string) returns (r: Outcome<Option<Bytes>>)
      modifies http
      ensures r == WebFileContent(NextResponse(old(http.pending)))
      ensures http.pending == Remaining(old(http.pending))
      ensures http.sent == old(http.sent) + [FileRequest(uri)]
    {
      var resp := http.Get(FileRequest(uri));
      if resp.NetworkFailure? {
        r := Raise(TransportFault);
      } else if resp.status == 200 && resp.body != [] {
        r := Ok(Some(resp.body));
      } else {
        r := Ok(None);
      }
    }

    /** `graph_get(edge, params)`: the token is written into the caller's dict (a fresh
        one when there is none), the request is sent with that dict, and the reply is
        classified. */
    method GraphGet(edge: string, params: QueryParams?) returns (r: Outcome<Json>)
      modifies http, params
      ensures var t := Get(accessToken, edge, decode, old(StartQuery(params)), old(http.pending));
        && r == t.outcome
        && http.pending == t.pending
        && http.sent == old(http.sent) + t.requests
        && (params != null ==> params.entries == t.query)
    {
      var query := params;
      if query == null {
        query := new QueryParams(map[]);
      }
      query.entries := query.entries[TokenKey := Str(accessToken)];
      var resp := http.Get(GraphRequest(edge, query.entries));
      r := Classify(resp, decode);
    }

    /** `graph_get_all(edge, params)`: the first page, then one request per non-empty
        `after` cursor, written into the same dict, until a page is empty or has none;
        the pages' `data` lists are joined in arrival order. */
    method GraphGetAll(edge: string, params: QueryParams?) returns (r: Outcome<seq<Json>>)
      modifies http, params
      ensures var t := GetAll(accessToken, edge, decode, old(StartQuery(params)), old(http.pending));
        && r == t.outcome
        && http.pending == t.pending
        && http.sent == old(http.sent) + t.requests
        && (params != null ==> params.entries == t.query)
    {
      var query := params;
      if query == null {
        query := new QueryParams(map[]);
      }
      ghost var start := query.entries;
      ghost var first := Get(accessToken, edge, decode, start, http.pending);
      ghost var whole := GetAll(accessToken, edge, decode, start, http.pending);
      ghost var pending0 := http.pending;
      var part := GraphGet(edge, query);
      var page: Json;
      match part
      case Raise(f) =>
        assert whole == Trace(Raise(f), first.query, first.requests, first.pending) by { GetAllStart(accessToken, edge, decode, start, pending0); }
        return Raise(f);
      case Ok(p) => page := p;
      var data := DataOf(page);
      var result: seq<Json>;
      match data
      case Raise(f) =>
        assert whole == Trace(Raise(f), first.query, first.requests, first.pending) by { GetAllStart(accessToken, edge, decode, start, pending0); }
        return Raise(f);
      case Ok(items) =>
        assert whole == Then(first.requests, Walk(accessToken, edge, decode, first.query, page, items, first.pending)) by {
          GetAllStart(accessToken, edge, decode, start, pending0);
        }
        result := items;
      ghost var done := first.requests;
      while Truthy(page)
        invariant http.sent == old(http.sent) + done
        invariant whole == Then(done, Walk(accessToken, edge, decode, query.entries, page, result, http.pending))
        invariant params != null ==> query == params
        decreases |http.pending|
      {
        var cursor := Lookup(page, ["paging", "cursors", AfterKey]);
        if cursor.Raise? {
          assert whole == Then(done, Trace(Raise(cursor.failure), query.entries, [], http.pending)) by {
            WalkStops(accessToken, edge, decode, query.entries, page, result, http.pending);
          }
          assert done + [] == done;
          return Raise(cursor.failure);
        }
        if !Truthy(cursor.value) {
          break;
        }
        ghost var q0, page0, pending0 := query.entries, page, http.pending;
        query.entries := query.entries[AfterKey := cursor.value];
        ghost var g := Get(accessToken, edge, decode, query.entries, http.pending);
        ghost var sentBefore := http.sent;
        assert StartQuery(query) == query.entries;
        part := GraphGet(edge, query);
        assert http.sent == old(http.sent) + (done + g.requests) by {
          assert http.sent == sentBefore + g.requests;
          assert sentBefore == old(http.sent) + done;
          AppendAssoc(old(http.sent), done, g.requests);
        }
        match part
        case Raise(f) =>
          assert whole == Then(done, Trace(Raise(f), g.query, g.requests, g.pending)) by {
            WalkFollowUp(accessToken, edge, decode, q0, page0, result, pending0, cursor.value);
          }
          return Raise(f);
        case Ok(p) => page := p;
        data := DataOf(page);
        match data
        case Raise(f) =>
          assert whole == Then(done, Trace(Raise(f), g.query, g.requests, g.pending)) by {
            WalkFollowUp(accessToken, edge, decode, q0, page0, result, pending0, cursor.value);
          }
          return Raise(f);
        case Ok(items) =>
          assert whole == Then(done + g.requests, Walk(accessToken, edge, decode, g.query, page, result + items, g.pending)) by {
            WalkFollowUp(accessToken, edge, decode, q0, page0, result, pending0, cursor.value);
            ThenThen(done, g.requests, Walk(accessToken, edge, decode, g.query, page, result + items, g.pending));
          }
          result := result + items;
          done := done + g.requests;
      }
      assert whole == Then(done, Trace(Ok(result), query.entries, [], http.pending)) by {
        WalkStops(accessToken, edge, decode, query.entries, page, result, http.pending);
      }
      assert done + [] == done;
      r := Ok(result);
    }

    /** `get_user_info`: the `/me` object. */
    method GetUserInfo() returns (r: Outcome<Json>)
      modifies http
      ensures var t := Get(accessToken, MeEdge, decode, map[], old(http.pending));
        r == t.outcome && http.pending == t.pending && http.sent == old(http.sent) + t.requests
    {
      r := GraphGet(MeEdge, null);
    }

    /** The `get_user_*` listings: every item of a paginated edge, asking for the given
        fields. */
    method GetListing(edge: string, fields: string) returns (r: Outcome<seq<Json>>)
      modifies http
      ensures var t := GetAll(accessToken, edge, decode, map["fields" := Str(fields)], old(http.pending));
        r == t.outcome && http.pending == t.pending && http.sent == old(http.sent) + t.requests
    {
      var params := new QueryParams(map["fields" := Str(fields)]);
      r := GraphGetAll(edge, params);
    }

    /** `get_user_photos` */
    method GetUserPhotos() returns (r: Outcome<seq<Json>>)
      modifies http
      ensures var t := GetAll(accessToken, UploadedPhotosEdge, decode, map["fields" := Str(PhotoFields)], old(http.pending));
        r == t.outcome && http.pending == t.pending && http.sent == old(http.sent) + t.requests
    {
      r := GetListing(UploadedPhotosEdge, PhotoFields);
    }

    /** `get_user_tagged_photos` */
    method GetUserTaggedPhotos() returns (r: Outcome<seq<Json>>)
      modifies http
      ensures var t := GetAll(accessToken, TaggedPhotosEdge, decode, map["fields" := Str(PhotoFields)], old(http.pending));
        r == t.outcome && http.pending == t.pending && http.sent == old(http.sent) + t.requests
    {
      r := GetListing(TaggedPhotosEdge, PhotoFields);
    }

    /** `get_user_videos` */
    method GetUserVideos() returns (r: Outcome<seq<Json>>)
      modifies http
      ensures var t := GetAll(accessToken, UploadedVideosEdge, decode, map["fields" := Str(VideoFields)], old(http.pending));
        r == t.outcome && http.pending == t.pending && http.sent == old(http.sent) + t.requests
    {
      r := GetListing(UploadedVideosEdge, VideoFields);
    }

    /** `get_user_tagged_videos` */
    method GetUserTaggedVideos() returns (r: Outcome<seq<Json>>)
      modifies http
      ensures var t := GetAll(accessToken, TaggedVideosEdge, decode, map["fields" := Str(VideoFields)], old(http.pending));
        r == t.outcome && http.pending == t.pending && http.sent == old(http.sent) + t.requests
    {
      r := GetListing(TaggedVideosEdge, VideoFields);
    }

    /** `download_all(data, backup_subfolder)`: every entry with a `source`, in order, is
        fetched and, when there is content, written to its destination; the album folder
        is created first when missing. */
    method DownloadAll(data: seq<AssetRecord>, backupSubfolder: string, fs: FileSystem) returns (r: Outcome<()>)
      modifies http, fs
      ensures var (o, w) := Run(WebFileContent, backupSubfolder, data,
                                World(old(fs.dirs), old(fs.files), old(http.pending), old(http.sent)));
        && r == o
        && fs.dirs == w.dirs && fs.files == w.files
        && http.pending == w.pending && http.sent == w.sent
    {
      ghost var whole := Run(WebFileContent, backupSubfolder, data, World(fs.dirs, fs.files, http.pending, http.sent));
      var count := 0;
      var total := |data|;
      for i := 0 to |data|
        invariant count == CountSourced(data[..i]) && count <= i
        invariant whole == Run(WebFileContent, backupSubfolder, data[i..], World(fs.dirs, fs.files, http.pending, http.sent))
      {
        var entry := data[i];
        ghost var w := World(fs.dirs, fs.files, http.pending, http.sent);
        assert count + (if SourceKey in entry then 1 else 0) == CountSourced(data[..i + 1]) by {
          CountSourcedAppend(data[..i], entry);
          assert data[..i + 1] == data[..i] + [entry];
        }
        ghost var step := Step(WebFileContent, backupSubfolder, entry, w);
        assert whole == if step.0.Raise? then step else Run(WebFileContent, backupSubfolder, data[i + 1..], step.1) by {
          RunCons(WebFileContent, backupSubfolder, data[i..], w);
          assert data[i..][0] == entry && data[i..][1..] == data[i + 1..];
        }
        if SourceKey in entry {
          count := count + 1;
        }
        var o := DownloadEntry(entry, backupSubfolder, fs);
        if o.Raise? {
          return o;
        }
      }
      r := Ok(());
    }

    /** One turn of `download_all`'s loop: an entry without `source` is skipped; otherwise
        the destination folder is created when missing, the file fetched and, when there
        is content, written. */
    method DownloadEntry(entry: AssetRecord, backupSubfolder: string, fs: FileSystem) returns (r: Outcome<()>)
      modifies http, fs
      ensures var (o, w) := Step(WebFileContent, backupSubfolder, entry,
                                 World(old(fs.dirs), old(fs.files), old(http.pending), old(http.sent)));
        && r == o
        && fs.dirs == w.dirs && fs.files == w.files
        && http.pending == w.pending && http.sent == w.sent
    {
      ghost var w := World(fs.dirs, fs.files, http.pending, http.sent);
      if SourceKey !in entry {
        return Ok(());
      }
      var source := entry[SourceKey];
      var destDir := backupSubfolder;
      var albumName := AlbumName(entry);
      if albumName.Raise? {
        return Raise(albumName.failure);
      }
      if albumName.value.Some? {
        destDir := Join(destDir, albumName.value.value);
      }
      if destDir != "" && !fs.Exists(destDir) {
        var _ := fs.MakeDirs(destDir);
      }
      ghost var w1 := World(fs.dirs, fs.files, http.pending, http.sent);
      assert w1 == EnsureDir(w, destDir);
      if !source.Str? {
        return Raise(TypeFault);
      }
      var destFile := Join(destDir, Basename(source.s));
      assert Step(WebFileContent, backupSubfolder, entry, w) == FetchInto(WebFileContent, source.s, destFile, w1) by {
        StepWithSource(WebFileContent, backupSubfolder, entry, w, source.s, albumName.value);
      }
      var content := GetWebFile(source.s);
      FetchResult(WebFileContent, source.s, destFile, w1, content);
      if content.Raise? {
        return Raise(content.failure);
      }
      if content.value.Some? {
        fs.Write(destFile, content.value.value);
      }
      r := Ok(());
    }
  }
}
