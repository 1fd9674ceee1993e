/** The downloader (`FacebookConn.download_all` and `get_web_file`): every entry with a
    `source` is fetched and written under the backup folder, in a sub-folder named after
    its album when it has one. */
module Download {
  import opened Values
  import opened Http
  import opened Paths
  import opened LocalFs

  /** One element of the `data` list: a photo or video object. */
  type AssetRecord = map<string, Json>

  /** What `get_web_file` makes of the reply to its GET. */
  type Fetcher = Response -> Outcome<Option<Bytes>>

  const SourceKey: string := "source"

  /** `get_web_file`, as evidently intended: the body of a 200 reply with a non-empty body,
      None for any other reply; only the transport's own exception escapes. */
  function WebFileContent(resp: Response): (r: Outcome<Option<Bytes>>)
    ensures r.Raise? <==> resp.NetworkFailure?
    ensures r.Raise? ==> r.failure == TransportFault
    ensures r.Ok? && r.value.Some? <==> resp.Response? && resp.status == 200 && resp.body != []
    ensures r.Ok? && r.value.Some? ==> r.value.value == resp.body
  {
    match resp
    case NetworkFailure => Raise(TransportFault)
    case Response(status, body) => if status == 200 && body != [] then Ok(Some(body)) else Ok(None)
  }

  /** `get_web_file` as written: its failure branch formats the undefined name `url`, so
      instead of returning None it raises NameError. */
  function WebFileContentAsWritten(resp: Response): (r: Outcome<Option<Bytes>>)
    ensures r.Ok? <==> resp.Response? && resp.status == 200 && resp.body != []
    ensures r.Ok? ==> r.value == Some(resp.body)
    ensures resp.Response? && !(resp.status == 200 && resp.body != []) ==> r == Raise(NameFault)
  {
    match resp
    case NetworkFailure => Raise(TransportFault)
    case Response(status, body) => if status == 200 && body != [] then Ok(Some(body)) else Raise(NameFault)
  }

  /** `entry.get('album', {}).get('name')`, kept when truthy. A non-dict `album` makes
      `.get` raise, and a truthy name that is not a string makes `os.path.join` raise. */
  function AlbumName(entry: AssetRecord): (r: Outcome<Option<string>>)
    ensures "album" !in entry ==> r == Ok(None)
    ensures "album" in entry && !entry["album"].Obj? ==> r == Raise(TypeFault)
    ensures "album" in entry && entry["album"].Obj? &&
            ("name" !in entry["album"].fields || !Truthy(entry["album"].fields["name"]))
            ==> r == Ok(None)
    ensures "album" in entry && entry["album"].Obj? && "name" in entry["album"].fields &&
            Truthy(entry["album"].fields["name"]) && !entry["album"].fields["name"].Str?
            ==> r == Raise(TypeFault)
    ensures r.Ok? && r.value.Some? ==> r.value.value != ""
    ensures r.Raise? ==> r.failure == TypeFault
  {
    if "album" !in entry then Ok(None)
    else
      match entry["album"]
      case Obj(album) =>
        if "name" !in album || !Truthy(album["name"]) then Ok(None)
        else (
          match album["name"]
          case Str(s) => Ok(Some(s))
          case _ => Raise(TypeFault))
      case _ => Raise(TypeFault)
  }

  /** A string album name is the folder name exactly when it is non-empty. */
  lemma AlbumNameOfString(entry: AssetRecord, name: string)
    requires "album" in entry && entry["album"].Obj? && "name" in entry["album"].fields
    requires entry["album"].fields["name"] == Str(name)
    ensures AlbumName(entry) == if name == "" then Ok(None) else Ok(Some(name))
  {
  }

  /** `dest_dir`: the backup folder, or the album's folder inside it. */
  function DestDir(root: string, album: Option<string>): string {
    if album.Some? then Join(root, album.value) else root
  }

  /** Where an entry's file goes, for an entry that gets as far as its download: None for
      an entry without `source` and for one that raises before fetching. */
  function Destination(root: string, entry: AssetRecord): Option<string> {
    if SourceKey !in entry then None
    else
      match AlbumName(entry)
      case Raise(_) => None
      case Ok(album) =>
        match entry[SourceKey]
        case Str(source) => Some(Join(DestDir(root, album), Basename(source)))
        case _ => None
  }

  /** The root as a prefix: followed by '/', unless it is empty or already ends in one. */
  function WithSeparator(root: string): string {
    if root == "" || root[|root| - 1] == '/' then root else root + "/"
  }

  /** The destination is `root/album/<basename of source>`, or `root/<basename of source>`
      without an album, for an album name without '/' at either end; a root that is
      empty or ends in '/' gets no second separator. */
  lemma DestinationLayout(root: string, album: Option<string>, source: string)
    requires album.Some? ==> album.value != "" && album.value[0] != '/' && album.value[|album.value| - 1] != '/'
    ensures Join(DestDir(root, album), Basename(source)) ==
      WithSeparator(root) + (if album.Some? then album.value + "/" else "") + Basename(source)
  {
    var base := Basename(source);
    assert !IsAbsolute(base) by {
      if base != [] { assert base[0] != '/'; }
    }
    if album.Some? {
      var dir := Join(root, album.value);
      assert dir == WithSeparator(root) + album.value;
      assert dir[|dir| - 1] == album.value[|album.value| - 1];
      assert Join(dir, base) == dir + "/" + base;
      assert WithSeparator(root) + album.value + "/" + base == WithSeparator(root) + (album.value + "/") + base;
    } else {
      assert WithSeparator(root) + "" == WithSeparator(root);
    }
  }

  /** The directories, files and transport together. */
  datatype World = World(dirs: set<string>, files: map<string, Bytes>, pending: seq<Response>, sent: seq<Request>)

  /** `if not os.path.exists(dest_dir): os.makedirs(dest_dir)`, with a failure only logged;
      for the empty path `os.path.exists` is false and `os.makedirs` raises inside the
      bare `except`, so the empty path leaves everything unchanged. */
  function EnsureDir(w: World, dir: string): World {
    if dir == "" || dir in w.dirs || dir in w.files then w else w.(dirs := AfterMakeDirs(w.dirs, w.files, dir))
  }

  /** `image_content = self.get_web_file(source)` and, when there is content, the write
      of it to `dest`. */
  function FetchInto(fetch: Fetcher, source: string, dest: string, w: World): (Outcome<()>, World) {
    var w1 := w.(pending := Remaining(w.pending), sent := w.sent + [FileRequest(source)]);
    match fetch(NextResponse(w.pending))
    case Raise(f) => (Raise(f), w1)
    case Ok(None) => (Ok(()), w1)
    case Ok(Some(content)) => (Ok(()), w1.(files := w1.files[dest := content]))
  }

  /** One turn of the `for entry in data` loop, as evidently intended: the destination
      folder, the album's or the backup folder itself, is created when missing before
      the file is fetched into it. */
  function Step(fetch: Fetcher, root: string, entry: AssetRecord, w: World): (Outcome<()>, World) {
    if SourceKey !in entry then (Ok(()), w)
    else
      match AlbumName(entry)
      case Raise(f) => (Raise(f), w)
      case Ok(album) =>
        var dir := DestDir(root, album);
        var w1 := EnsureDir(w, dir);
        match entry[SourceKey]
        case Str(source) => FetchInto(fetch, source, Join(dir, Basename(source)), w1)
        case _ => (Raise(TypeFault), w1)
  }

  /** `open(dest_file, "w")` as written finds its folder only when it exists: the
      current directory, or a directory. */
  predicate FolderExists(dirs: set<string>, dir: string) {
    dir == "" || dir in dirs
  }

  /** The fetch as written: `open` raises IOError when the folder of `dest` is missing. */
  function FetchIntoAsWritten(fetch: Fetcher, source: string, dir: string, dest: string, w: World): (Outcome<()>, World) {
    var w1 := w.(pending := Remaining(w.pending), sent := w.sent + [FileRequest(source)]);
    match fetch(NextResponse(w.pending))
    case Raise(f) => (Raise(f), w1)
    case Ok(None) => (Ok(()), w1)
    case Ok(Some(content)) =>
      if FolderExists(w1.dirs, dir) then (Ok(()), w1.(files := w1.files[dest := content])) else (Raise(IOFault), w1)
  }

  /** One turn as written: only an album folder is created; the backup folder itself
      never is. */
  function StepAsWritten(fetch: Fetcher, root: string, entry: AssetRecord, w: World): (Outcome<()>, World) {
    if SourceKey !in entry then (Ok(()), w)
    else
      match AlbumName(entry)
      case Raise(f) => (Raise(f), w)
      case Ok(album) =>
        var dir := DestDir(root, album);
        var w1 := if album.Some? then EnsureDir(w, dir) else w;
        match entry[SourceKey]
        case Str(source) => FetchIntoAsWritten(fetch, source, dir, Join(dir, Basename(source)), w1)
        case _ => (Raise(TypeFault), w1)
  }

  /** The whole loop: entries in order, stopping at the first exception. */
  function Run(fetch: Fetcher, root: string, entries: seq<AssetRecord>, w: World): (Outcome<()>, World)
    decreases |entries|
  {
    if entries == [] then (Ok(()), w)
    else
      var (o, w1) := Step(fetch, root, entries[0], w);
      if o.Raise? then (o, w1) else Run(fetch, root, entries[1..], w1)
  }

  /** The whole loop as written, turn by turn with `StepAsWritten`. */
  function RunAsWritten(fetch: Fetcher, root: string, entries: seq<AssetRecord>, w: World): (Outcome<()>, World)
    decreases |entries|
  {
    if entries == [] then (Ok(()), w)
    else
      var (o, w1) := StepAsWritten(fetch, root, entries[0], w);
      if o.Raise? then (o, w1) else RunAsWritten(fetch, root, entries[1..], w1)
  }

  lemma RunAsWrittenCons(fetch: Fetcher, root: string, entries: seq<AssetRecord>, w: World)
    requires entries != []
    ensures RunAsWritten(fetch, root, entries, w) ==
      var (o, w1) := StepAsWritten(fetch, root, entries[0], w);
      if o.Raise? then (o, w1) else RunAsWritten(fetch, root, entries[1..], w1)
  {
  }

  /** One turn of the download loop, then the rest. */
  lemma RunCons(fetch: Fetcher, root: string, entries: seq<AssetRecord>, w: World)
    requires entries != []
    ensures Run(fetch, root, entries, w) ==
      var (o, w1) := Step(fetch, root, entries[0], w);
      if o.Raise? then (o, w1) else Run(fetch, root, entries[1..], w1)
  {
  }
  // ---------------------------------------------------------------------------------
  // A reference description without directories: the writes and requests in order.

  datatype Write = Write(path: string, content: Bytes)
  datatype Plan = Plan(outcome: Outcome<()>, writes: seq<Write>, requests: seq<Request>, pending: seq<Response>)

  /** The fetch of `source` and the write it plans to `dest`. */
  function PlanFetch(fetch: Fetcher, source: string, dest: string, pending: seq<Response>): Plan {
    var requests := [FileRequest(source)];
    match fetch(NextResponse(pending))
    case Raise(f) => Plan(Raise(f), [], requests, Remaining(pending))
    case Ok(None) => Plan(Ok(()), [], requests, Remaining(pending))
    case Ok(Some(content)) => Plan(Ok(()), [Write(dest, content)], requests, Remaining(pending))
  }

  function PlanStep(fetch: Fetcher, root: string, entry: AssetRecord, pending: seq<Response>): Plan {
    if SourceKey !in entry then Plan(Ok(()), [], [], pending)
    else
      match AlbumName(entry)
      case Raise(f) => Plan(Raise(f), [], [], pending)
      case Ok(album) =>
        match entry[SourceKey]
        case Str(source) => PlanFetch(fetch, source, Join(DestDir(root, album), Basename(source)), pending)
        case _ => Plan(Raise(TypeFault), [], [], pending)
  }

  function PlanAll(fetch: Fetcher, root: string, entries: seq<AssetRecord>, pending: seq<Response>): Plan
    decreases |entries|
  {
    if entries == [] then Plan(Ok(()), [], [], pending)
    else
      var p := PlanStep(fetch, root, entries[0], pending);
      if p.outcome.Raise? then p
      else
        var q := PlanAll(fetch, root, entries[1..], p.pending);
        Plan(q.outcome, p.writes + q.writes, p.requests + q.requests, q.pending)
  }

  /** The destination of an entry with a string `source` and a usable album. */
  lemma DestinationWithSource(root: string, entry: AssetRecord, source: string, album: Option<string>)
    requires SourceKey in entry && entry[SourceKey] == Str(source) && AlbumName(entry) == Ok(album)
    ensures Destination(root, entry) == Some(Join(DestDir(root, album), Basename(source)))
  {
  }

  /** A turn for an entry with a string `source` and a usable album: the album folder
      is ensured, then the file is fetched into its destination. */
  lemma StepWithSource(fetch: Fetcher, root: string, entry: AssetRecord, w: World, source: string, album: Option<string>)
    requires SourceKey in entry && entry[SourceKey] == Str(source) && AlbumName(entry) == Ok(album)
    ensures Step(fetch, root, entry, w) ==
      FetchInto(fetch, source, Join(DestDir(root, album), Basename(source)), EnsureDir(w, DestDir(root, album)))
  {
  }

  lemma PlanStepWithSource(fetch: Fetcher, root: string, entry: AssetRecord, pending: seq<Response>,
                           source: string, album: Option<string>)
    requires SourceKey in entry && entry[SourceKey] == Str(source) && AlbumName(entry) == Ok(album)
    ensures PlanStep(fetch, root, entry, pending) ==
      PlanFetch(fetch, source, Join(DestDir(root, album), Basename(source)), pending)
  {
  }

  /** Making sure a folder exists touches only the directories, and only adds to them. */
  lemma EnsureDirKeeps(w: World, dir: string)
    ensures var w1 := EnsureDir(w, dir);
      w1.files == w.files && w1.pending == w.pending && w1.sent == w.sent && w.dirs <= w1.dirs
  {
  }

  /** A planned fetch sends one request, for its source, and writes at most once, to its
      destination. */
  lemma PlanFetchWrites(fetch: Fetcher, source: string, dest: string, pending: seq<Response>)
    ensures var p := PlanFetch(fetch, source, dest, pending);
      && p.requests == [FileRequest(source)]
      && |p.writes| <= 1
      && (p.writes != [] ==> p.writes[0].path == dest)
      && WrittenPaths(p.writes) <= {dest}
  {
    var p := PlanFetch(fetch, source, dest, pending);
    if p.writes != [] {
      WrittenPathsSingle(p.writes[0]);
      assert p.writes == [p.writes[0]];
    }
  }

  /** The fetch does what its plan says. */
  lemma FetchFollowsPlan(fetch: Fetcher, source: string, dest: string, w: World)
    ensures var (o, w1) := FetchInto(fetch, source, dest, w);
      var p := PlanFetch(fetch, source, dest, w.pending);
      && o == p.outcome
      && w1.files == ApplyWrites(w.files, p.writes)
      && w1.pending == p.pending
      && w1.sent == w.sent + p.requests
      && w1.dirs == w.dirs
  {
    match fetch(NextResponse(w.pending))
    case Raise(_) =>
    case Ok(None) =>
    case Ok(Some(content)) =>
      assert [Write(dest, content)][1..] == [];
  }

  /** The fetch, given what `get_web_file` made of the next reply. */
  lemma FetchResult(fetch: Fetcher, source: string, dest: string, w: World, content: Outcome<Option<Bytes>>)
    requires content == fetch(NextResponse(w.pending))
    ensures FetchInto(fetch, source, dest, w) ==
      (if content.Raise? then Raise(content.failure) else Ok(()),
       w.(files := if content.Ok? && content.value.Some? then w.files[dest := content.value.value] else w.files,
          pending := Remaining(w.pending),
          sent := w.sent + [FileRequest(source)]))
  {
  }

  /** `get_web_file` on a reply: the file is written exactly when the reply is a 200
      with a non-empty body. */
  lemma FetchReply(source: string, dest: string, w: World, status: int, body: Bytes)
    requires w.pending != [] && w.pending[0] == Response(status, body)
    ensures FetchInto(WebFileContent, source, dest, w) ==
      (Ok(()), w.(files := if status == 200 && body != [] then w.files[dest := body] else w.files,
                  pending := w.pending[1..],
                  sent := w.sent + [FileRequest(source)]))
  {
  }

  /** The files after the writes, one after the other. */
  function ApplyWrites(files: map<string, Bytes>, writes: seq<Write>): map<string, Bytes>
    decreases |writes|
  {
    if writes == [] then files else ApplyWrites(files[writes[0].path := writes[0].content], writes[1..])
  }

  /** The paths the writes touch. */
  function WrittenPaths(writes: seq<Write>): set<string>
    decreases |writes|
  {
    if writes == [] then {} else {writes[0].path} + WrittenPaths(writes[1..])
  }

  lemma {:induction false} WrittenPathsAppend(a: seq<Write>, b: seq<Write>)
    ensures WrittenPaths(a + b) == WrittenPaths(a) + WrittenPaths(b)
    decreases |a|
  {
    if a == [] {
      assert a + b == b;
    } else {
      assert (a + b)[0] == a[0] && (a + b)[1..] == a[1..] + b;
      WrittenPathsAppend(a[1..], b);
    }
  }

  lemma WrittenPathsSingle(w: Write)
    ensures WrittenPaths([w]) == {w.path}
  {
    assert [w][1..] == [];
  }

  /** For each path written, the content of its last write. */
  function LastWrites(writes: seq<Write>): (m: map<string, Bytes>)
    ensures m.Keys == WrittenPaths(writes)
    decreases |writes|
  {
    if writes == [] then map[] else map[writes[0].path := writes[0].content] + LastWrites(writes[1..])
  }

  /** Writing in order is overriding every written path with its last content. */
  lemma {:induction false} ApplyWritesOverrides(files: map<string, Bytes>, writes: seq<Write>)
    ensures ApplyWrites(files, writes) == files + LastWrites(writes)
    decreases |writes|
  {
    if writes != [] {
      var w := writes[0];
      ApplyWritesOverrides(files[w.path := w.content], writes[1..]);
      var rest := LastWrites(writes[1..]);
      assert files[w.path := w.content] + rest == files + (map[w.path := w.content] + rest);
    }
  }

  lemma {:induction false} ApplyWritesAppend(files: map<string, Bytes>, a: seq<Write>, b: seq<Write>)
    ensures ApplyWrites(files, a + b) == ApplyWrites(ApplyWrites(files, a), b)
    decreases |a|
  {
    if a == [] {
      assert a + b == b;
    } else {
      assert (a + b)[0] == a[0] && (a + b)[1..] == a[1..] + b;
      ApplyWritesAppend(files[a[0].path := a[0].content], a[1..], b);
    }
  }

  /** One turn of the loop does what its plan says, and never removes a directory. */
  lemma StepFollowsPlan(fetch: Fetcher, root: string, entry: AssetRecord, w: World)
    ensures var (o, w1) := Step(fetch, root, entry, w);
      var p := PlanStep(fetch, root, entry, w.pending);
      && o == p.outcome
      && w1.files == ApplyWrites(w.files, p.writes)
      && w1.pending == p.pending
      && w1.sent == w.sent + p.requests
      && w.dirs <= w1.dirs
  {
    assert w.sent + [] == w.sent;
    if SourceKey in entry {
      match AlbumName(entry)
      case Raise(_) =>
      case Ok(album) =>
        var dir := DestDir(root, album);
        var w1 := EnsureDir(w, dir);
        EnsureDirKeeps(w, dir);
        match entry[SourceKey]
        case Str(source) =>
          StepWithSource(fetch, root, entry, w, source, album);
          PlanStepWithSource(fetch, root, entry, w.pending, source, album);
          FetchFollowsPlan(fetch, source, Join(dir, Basename(source)), w1);
        case _ =>
    }
  }

  /** The download loop does what the plan says: the same outcome, the planned requests
      in order, the files overridden by the planned writes; directories only grow. */
  lemma {:induction false} RunFollowsPlan(fetch: Fetcher, root: string, entries: seq<AssetRecord>, w: World)
    ensures var (o, w1) := Run(fetch, root, entries, w);
      var p := PlanAll(fetch, root, entries, w.pending);
      && o == p.outcome
      && w1.files == ApplyWrites(w.files, p.writes)
      && w1.pending == p.pending
      && w1.sent == w.sent + p.requests
      && w.dirs <= w1.dirs
    decreases |entries|
  {
    if entries != [] {
      var s := Step(fetch, root, entries[0], w);
      var p := PlanStep(fetch, root, entries[0], w.pending);
      assert Run(fetch, root, entries, w) == if s.0.Raise? then s else Run(fetch, root, entries[1..], s.1) by {
        RunCons(fetch, root, entries, w);
      }
      StepFollowsPlan(fetch, root, entries[0], w);
      if s.0.Ok? {
        RunFollowsPlan(fetch, root, entries[1..], s.1);
        TurnThenRest(w, s, p, Run(fetch, root, entries[1..], s.1), PlanAll(fetch, root, entries[1..], p.pending));
      }
    }
  }

  /** A turn that follows its plan and returns normally, then a rest of the loop that
      follows its own plan: together they follow the two plans joined. */
  lemma TurnThenRest(w: World, s: (Outcome<()>, World), p: Plan, r: (Outcome<()>, World), q: Plan)
    requires s.0 == p.outcome && p.outcome.Ok?
    requires s.1.files == ApplyWrites(w.files, p.writes) && s.1.pending == p.pending
    requires s.1.sent == w.sent + p.requests && w.dirs <= s.1.dirs
    requires r.0 == q.outcome && r.1.files == ApplyWrites(s.1.files, q.writes) && r.1.pending == q.pending
    requires r.1.sent == s.1.sent + q.requests && s.1.dirs <= r.1.dirs
    ensures r.1.files == ApplyWrites(w.files, p.writes + q.writes)
    ensures r.1.sent == w.sent + (p.requests + q.requests)
    ensures w.dirs <= r.1.dirs
  {
    ApplyWritesAppend(w.files, p.writes, q.writes);
    assert (w.sent + p.requests) + q.requests == w.sent + (p.requests + q.requests);
  }

  /** The destinations of the entries. */
  function Destinations(root: string, entries: seq<AssetRecord>): set<string>
    decreases |entries|
  {
    if entries == [] then {}
    else
      (if Destination(root, entries[0]).Some? then {Destination(root, entries[0]).value} else {})
      + Destinations(root, entries[1..])
  }

  /** The destination of the first entry, as a set. */
  function DestinationSet(root: string, entry: AssetRecord): set<string> {
    if Destination(root, entry).Some? then {Destination(root, entry).value} else {}
  }

  lemma DestinationsCons(root: string, entries: seq<AssetRecord>)
    requires entries != []
    ensures Destinations(root, entries) == DestinationSet(root, entries[0]) + Destinations(root, entries[1..])
  {
  }

  /** After a turn that returns normally, the loop's writes are that turn's writes
      followed by the rest's; after one that raises, the turn's writes are all. */
  lemma PlanAllWritesCons(fetch: Fetcher, root: string, entries: seq<AssetRecord>, pending: seq<Response>)
    requires entries != []
    ensures var p := PlanStep(fetch, root, entries[0], pending);
      PlanAll(fetch, root, entries, pending).writes ==
        if p.outcome.Raise? then p.writes else p.writes + PlanAll(fetch, root, entries[1..], p.pending).writes
  {
  }

  /** Every planned write goes to the destination of one of the entries. */
  lemma {:induction false} PlanWritesDestinations(fetch: Fetcher, root: string, entries: seq<AssetRecord>, pending: seq<Response>)
    ensures WrittenPaths(PlanAll(fetch, root, entries, pending).writes) <= Destinations(root, entries)
    decreases |entries|
  {
    if entries != [] {
      var p := PlanStep(fetch, root, entries[0], pending);
      PlanStepWritesDestination(fetch, root, entries[0], pending);
      DestinationsCons(root, entries);
      PlanAllWritesCons(fetch, root, entries, pending);
      if p.outcome.Ok? {
        var q := PlanAll(fetch, root, entries[1..], p.pending);
        PlanWritesDestinations(fetch, root, entries[1..], p.pending);
        WrittenPathsAppend(p.writes, q.writes);
      }
    }
  }

  /** A turn writes at most once, to the entry's destination. */
  lemma PlanStepWritesDestination(fetch: Fetcher, root: string, entry: AssetRecord, pending: seq<Response>)
    ensures var p := PlanStep(fetch, root, entry, pending);
      && |p.writes| <= 1
      && (p.writes != [] ==> Destination(root, entry) == Some(p.writes[0].path))
      && WrittenPaths(p.writes) <= DestinationSet(root, entry)
  {
    if SourceKey in entry {
      match AlbumName(entry)
      case Raise(_) =>
      case Ok(album) =>
        match entry[SourceKey]
        case Str(source) =>
          var dest := Join(DestDir(root, album), Basename(source));
          DestinationWithSource(root, entry, source, album);
          PlanStepWithSource(fetch, root, entry, pending, source, album);
          PlanFetchWrites(fetch, source, dest, pending);
        case _ =>
    }
  }

  /** A turn that returns normally has fetched its entry's source, if it has one, and
      nothing else. */
  lemma PlanStepRequests(fetch: Fetcher, root: string, entry: AssetRecord, pending: seq<Response>)
    ensures var p := PlanStep(fetch, root, entry, pending);
      p.outcome.Ok? ==>
        p.requests == (if SourceKey in entry && entry[SourceKey].Str? then [FileRequest(entry[SourceKey].s)] else [])
  {
    if SourceKey in entry {
      match AlbumName(entry)
      case Raise(_) =>
      case Ok(album) =>
        match entry[SourceKey]
        case Str(source) =>
          PlanStepWithSource(fetch, root, entry, pending, source, album);
          PlanFetchWrites(fetch, source, Join(DestDir(root, album), Basename(source)), pending);
        case _ =>
    }
  }

  /** Only destination paths change: every other file keeps its content, and no other
      file appears. */
  lemma RunChangesOnlyDestinations(fetch: Fetcher, root: string, entries: seq<AssetRecord>, w: World)
    ensures var w1 := Run(fetch, root, entries, w).1;
      && w1.files.Keys <= w.files.Keys + Destinations(root, entries)
      && forall p :: p in w.files && p !in Destinations(root, entries) ==> p in w1.files && w1.files[p] == w.files[p]
  {
    RunFollowsPlan(fetch, root, entries, w);
    var p := PlanAll(fetch, root, entries, w.pending);
    ApplyWritesOverrides(w.files, p.writes);
    PlanWritesDestinations(fetch, root, entries, w.pending);
  }

  /** Downloading the same entries again, against the same replies, gives the same
      outcome and leaves exactly the files the first run left. */
  lemma RunIdempotent(fetch: Fetcher, root: string, entries: seq<AssetRecord>, w: World)
    ensures var (o1, w1) := Run(fetch, root, entries, w);
      var (o2, w2) := Run(fetch, root, entries, w1.(pending := w.pending));
      o2 == o1 && w2.files == w1.files
  {
    var (o1, w1) := Run(fetch, root, entries, w);
    var again := w1.(pending := w.pending);
    RunFollowsPlan(fetch, root, entries, w);
    RunFollowsPlan(fetch, root, entries, again);
    var p := PlanAll(fetch, root, entries, w.pending);
    ApplyWritesOverrides(w.files, p.writes);
    ApplyWritesOverrides(w1.files, p.writes);
    var last := LastWrites(p.writes);
    assert (w.files + last) + last == w.files + last;
  }

  /** Number of entries that have a `source` key. */
  function CountSourced(entries: seq<AssetRecord>): (n: nat)
    decreases |entries|
  {
    if entries == [] then 0 else (if SourceKey in entries[0] then 1 else 0) + CountSourced(entries[1..])
  }

  lemma {:induction false} CountSourcedAppend(entries: seq<AssetRecord>, e: AssetRecord)
    ensures CountSourced(entries + [e]) == CountSourced(entries) + (if SourceKey in e then 1 else 0)
    decreases |entries|
  {
    if entries != [] {
      assert (entries + [e])[1..] == entries[1..] + [e];
      CountSourcedAppend(entries[1..], e);
    }
  }

  /** The running count of entries with a source never exceeds the number of entries. */
  lemma {:induction false} CountSourcedBound(entries: seq<AssetRecord>)
    ensures CountSourced(entries) <= |entries|
    decreases |entries|
  {
    if entries != [] {
      CountSourcedBound(entries[1..]);
    }
  }

  /** The requests of a loop that completes: one fetch per entry with a `source`, in the
      order of the entries, to that source. */
  function SourceRequests(entries: seq<AssetRecord>): seq<Request>
    decreases |entries|
  {
    if entries == [] then []
    else
      (if SourceKey in entries[0] && entries[0][SourceKey].Str? then [FileRequest(entries[0][SourceKey].s)] else [])
      + SourceRequests(entries[1..])
  }

  /** A loop that returns normally fetched every entry with a `source` once, in order,
      and skipped the others: as many fetches as the running count reaches. */
  lemma {:induction false} PlanFetchesInOrder(fetch: Fetcher, root: string, entries: seq<AssetRecord>, pending: seq<Response>)
    ensures var p := PlanAll(fetch, root, entries, pending);
      p.outcome.Ok? ==> p.requests == SourceRequests(entries) && |p.requests| == CountSourced(entries)
    decreases |entries|
  {
    if entries != [] {
      var p := PlanStep(fetch, root, entries[0], pending);
      if p.outcome.Ok? {
        PlanStepRequests(fetch, root, entries[0], pending);
        PlanFetchesInOrder(fetch, root, entries[1..], p.pending);
      }
    }
  }

  /** A turn for an entry with a source and a usable album: one fetch of the source,
      whose outcome is the turn's, and a write of the content, when there is some, to the
      entry's destination; no other file changes. */
  lemma StepFetches(fetch: Fetcher, root: string, entry: AssetRecord, w: World, source: string, album: Option<string>)
    requires SourceKey in entry && entry[SourceKey] == Str(source) && AlbumName(entry) == Ok(album)
    ensures var (o, w1) := Step(fetch, root, entry, w);
      var c := fetch(NextResponse(w.pending));
      && Destination(root, entry) == Some(Join(DestDir(root, album), Basename(source)))
      && o == (if c.Raise? then Raise(c.failure) else Ok(()))
      && w1.files == (if c.Ok? && c.value.Some? then w.files[Destination(root, entry).value := c.value.value] else w.files)
      && w1.sent == w.sent + [FileRequest(source)]
      && w1.pending == Remaining(w.pending)
  {
    var dir := DestDir(root, album);
    var dest := Join(dir, Basename(source));
    var w1 := EnsureDir(w, dir);
    assert w1.files == w.files && w1.pending == w.pending && w1.sent == w.sent by {
      EnsureDirKeeps(w, dir);
    }
    assert Step(fetch, root, entry, w) == FetchInto(fetch, source, dest, w1) by {
      StepWithSource(fetch, root, entry, w, source, album);
    }
    var c := fetch(NextResponse(w.pending));
    var r := FetchInto(fetch, source, dest, w1);
    assert r.0 == (if c.Raise? then Raise(c.failure) else Ok(())) &&
           r.1.files == (if c.Ok? && c.value.Some? then w.files[dest := c.value.value] else w.files) &&
           r.1.sent == w.sent + [FileRequest(source)] &&
           r.1.pending == Remaining(w.pending) by {
      FetchResult(fetch, source, dest, w1, c);
    }
    DestinationWithSource(root, entry, source, album);
  }

  /** A single entry with a source and a usable album: its file is written with the
      fetched bytes exactly when the reply is a 200 with a non-empty body, and no other
      file changes. */
  lemma StepWritesOnlyOnSuccess(root: string, entry: AssetRecord, w: World, source: string, status: int, body: Bytes)
    requires SourceKey in entry && entry[SourceKey] == Str(source)
    requires AlbumName(entry).Ok?
    requires w.pending != [] && w.pending[0] == Response(status, body)
    ensures var (o, w1) := Step(WebFileContent, root, entry, w);
      && o == Ok(())
      && Destination(root, entry).Some?
      && w1.files == (if status == 200 && body != [] then w.files[Destination(root, entry).value := body] else w.files)
      && w1.sent == w.sent + [FileRequest(source)]
      && w1.pending == w.pending[1..]
  {
    StepFetches(WebFileContent, root, entry, w, source, AlbumName(entry).value);
  }

  /** Before the file is fetched, its folder exists, unless a file in the way made
      `os.makedirs` fail. */
  lemma StepEnsuresFolder(fetch: Fetcher, root: string, entry: AssetRecord, w: World, source: string, album: Option<string>)
    requires SourceKey in entry && entry[SourceKey] == Str(source) && AlbumName(entry) == Ok(album)
    ensures var dir := DestDir(root, album);
      var w1 := Step(fetch, root, entry, w).1;
      FolderExists(w1.dirs, dir) || MakeDirsFails(w.files, dir)
  {
    var dir := DestDir(root, album);
    var w1 := EnsureDir(w, dir);
    assert Step(fetch, root, entry, w).1.dirs == w1.dirs by {
      StepWithSource(fetch, root, entry, w, source, album);
      FetchFollowsPlan(fetch, source, Join(dir, Basename(source)), w1);
    }
    EnsureDirMakes(w, dir);
  }

  /** After `EnsureDir` the folder exists, unless a file in the way made `os.makedirs`
      fail. */
  lemma EnsureDirMakes(w: World, dir: string)
    ensures FolderExists(EnsureDir(w, dir).dirs, dir) || MakeDirsFails(w.files, dir)
  {
    FileBlocksMakeDirs(w.files, dir);
  }

  /** As written, an entry without an album whose backup folder does not exist yet gets
      its file downloaded and then `open` raises IOError; with the folder created first,
      the file is written into it. */
  lemma MissingFolderAsWritten(root: string, source: string, w: World, body: Bytes)
    requires root != "" && root !in w.dirs && !MakeDirsFails(w.files, root)
    requires body != [] && w.pending != [] && w.pending[0] == Response(200, body)
    ensures var entry: AssetRecord := map[SourceKey := Str(source)];
      && StepAsWritten(WebFileContent, root, entry, w) ==
           (Raise(IOFault), w.(pending := w.pending[1..], sent := w.sent + [FileRequest(source)]))
      && Step(WebFileContent, root, entry, w).0 == Ok(())
      && root in Step(WebFileContent, root, entry, w).1.dirs
      && Step(WebFileContent, root, entry, w).1.files == w.files[Join(root, Basename(source)) := body]
  {
    var entry: AssetRecord := map[SourceKey := Str(source)];
    assert AlbumName(entry) == Ok(None);
    FileBlocksMakeDirs(w.files, root);
    StepFetches(WebFileContent, root, entry, w, source, None);
    StepEnsuresFolder(WebFileContent, root, entry, w, source, None);
  }

  /** The folder an entry's file goes to already exists, for an entry that gets as far
      as its download. */
  predicate FolderReady(root: string, entry: AssetRecord, dirs: set<string>) {
    SourceKey in entry && AlbumName(entry).Ok? ==> FolderExists(dirs, DestDir(root, AlbumName(entry).value))
  }

  lemma FolderReadyGrows(root: string, entry: AssetRecord, d1: set<string>, d2: set<string>)
    requires d1 <= d2 && FolderReady(root, entry, d1)
    ensures FolderReady(root, entry, d2)
  {
  }

  /** Where the destination folder already exists, the corrected turn is the turn as
      written: the two differ only when that folder is missing. */
  lemma StepAgreesWhenFolderExists(fetch: Fetcher, root: string, entry: AssetRecord, w: World)
    requires FolderReady(root, entry, w.dirs)
    ensures Step(fetch, root, entry, w) == StepAsWritten(fetch, root, entry, w)
  {
    if SourceKey in entry && AlbumName(entry).Ok? {
      var dir := DestDir(root, AlbumName(entry).value);
      assert EnsureDir(w, dir) == w;
      match entry[SourceKey]
      case Str(source) =>
        var dest := Join(dir, Basename(source));
        assert FetchInto(fetch, source, dest, w) == FetchIntoAsWritten(fetch, source, dir, dest, w);
      case _ =>
    }
  }

  /** Where every entry's folder already exists, the corrected loop is the loop as
      written. */
  lemma {:induction false} RunAgreesWhenFoldersExist(fetch: Fetcher, root: string, entries: seq<AssetRecord>, w: World)
    requires forall i :: 0 <= i < |entries| ==> FolderReady(root, entries[i], w.dirs)
    ensures Run(fetch, root, entries, w) == RunAsWritten(fetch, root, entries, w)
    decreases |entries|
  {
    if entries != [] {
      RunCons(fetch, root, entries, w);
      RunAsWrittenCons(fetch, root, entries, w);
      StepAgreesWhenFolderExists(fetch, root, entries[0], w);
      var s := Step(fetch, root, entries[0], w);
      if s.0.Ok? {
        assert w.dirs <= s.1.dirs by {
          StepFollowsPlan(fetch, root, entries[0], w);
        }
        forall i | 0 <= i < |entries[1..]|
          ensures FolderReady(root, entries[1..][i], s.1.dirs)
        {
          assert entries[1..][i] == entries[i + 1];
          FolderReadyGrows(root, entries[i + 1], w.dirs, s.1.dirs);
        }
        RunAgreesWhenFoldersExist(fetch, root, entries[1..], s.1);
      }
    }
  }

  /** As written, one file that fails to download (here a 404) ends the whole loop with
      NameError: the next entry is never fetched and nothing is written. With `None`
      returned, the loop goes on and writes the next file. */
  lemma NotFoundAbortsAsWritten(root: string, srcA: string, srcB: string, w: World, body: Bytes)
    requires body != []
    requires w.pending == [Response(404, []), Response(200, body)]
    ensures var entries := [map[SourceKey := Str(srcA)], map[SourceKey := Str(srcB)]];
      && RunAsWritten(WebFileContentAsWritten, root, entries, w).0 == Raise(NameFault)
      && RunAsWritten(WebFileContentAsWritten, root, entries, w).1.files == w.files
      && RunAsWritten(WebFileContentAsWritten, root, entries, w).1.sent == w.sent + [FileRequest(srcA)]
      && Run(WebFileContent, root, entries, w).0 == Ok(())
      && Run(WebFileContent, root, entries, w).1.files == w.files[Join(root, Basename(srcB)) := body]
  {
    var a: AssetRecord := map[SourceKey := Str(srcA)];
    var b: AssetRecord := map[SourceKey := Str(srcB)];
    var entries := [a, b];
    assert entries[1..] == [b] && [b][1..] == [];
    assert AlbumName(a) == Ok(None) && AlbumName(b) == Ok(None);
    // as written: the first turn raises
    var s := StepAsWritten(WebFileContentAsWritten, root, a, w);
    assert s.0 == Raise(NameFault) && s.1.files == w.files && s.1.sent == w.sent + [FileRequest(srcA)] by {
      assert WebFileContentAsWritten(NextResponse(w.pending)) == Raise(NameFault);
      assert s == FetchIntoAsWritten(WebFileContentAsWritten, srcA, root, Join(root, Basename(srcA)), w);
    }
    assert RunAsWritten(WebFileContentAsWritten, root, entries, w) == s by {
      RunAsWrittenCons(WebFileContentAsWritten, root, entries, w);
    }
    // corrected: the first turn returns None, the second writes
    var s1 := Step(WebFileContent, root, a, w);
    assert s1.0 == Ok(()) && s1.1.files == w.files && s1.1.pending == [Response(200, body)] by {
      StepWritesOnlyOnSuccess(root, a, w, srcA, 404, []);
    }
    var s2 := Step(WebFileContent, root, b, s1.1);
    assert s2.0 == Ok(()) && s2.1.files == w.files[Join(root, Basename(srcB)) := body] by {
      StepWritesOnlyOnSuccess(root, b, s1.1, srcB, 200, body);
      DestinationWithSource(root, b, srcB, None);
    }
    assert Run(WebFileContent, root, entries, w) == Run(WebFileContent, root, [b], s1.1) by {
      RunCons(WebFileContent, root, entries, w);
    }
    assert Run(WebFileContent, root, [b], s1.1) == s2 by {
      RunCons(WebFileContent, root, [b], s1.1);
    }
  }

  /** An entry with a source in a plain album lands in the album's folder under a plain
      root. */
  lemma AlbumEntryDestination(root: string, album: string, source: string)
    requires root != "" && root[|root| - 1] != '/'
    requires album != "" && album[0] != '/' && album[|album| - 1] != '/'
    ensures var entry: AssetRecord := map[SourceKey := Str(source), "album" := Obj(map["name" := Str(album)])];
      Destination(root, entry) == Some(root + "/" + album + "/" + Basename(source))
  {
    var entry: AssetRecord := map[SourceKey := Str(source), "album" := Obj(map["name" := Str(album)])];
    AlbumOfRecord(entry, album);
    AlbumDestination(root, entry, album, source);
  }

  /** Any entry with a string `source` in a plain album lands in the album's folder
      under a plain root. */
  lemma AlbumDestination(root: string, entry: AssetRecord, album: string, source: string)
    requires root != "" && root[|root| - 1] != '/'
    requires album != "" && album[0] != '/' && album[|album| - 1] != '/'
    requires SourceKey in entry && entry[SourceKey] == Str(source) && AlbumName(entry) == Ok(Some(album))
    ensures Destination(root, entry) == Some(root + "/" + album + "/" + Basename(source))
  {
    DestinationWithSource(root, entry, source, Some(album));
    AlbumFolderPath(root, album, source);
  }

  lemma AlbumFolderPath(root: string, album: string, source: string)
    requires root != "" && root[|root| - 1] != '/'
    requires album != "" && album[0] != '/' && album[|album| - 1] != '/'
    ensures Join(DestDir(root, Some(album)), Basename(source)) == root + "/" + album + "/" + Basename(source)
  {
    var base := Basename(source);
    assert Join(DestDir(root, Some(album)), base) == WithSeparator(root) + (album + "/") + base by {
      DestinationLayout(root, Some(album), source);
    }
    assert WithSeparator(root) == root + "/";
    assert (root + "/") + (album + "/") + base == root + "/" + album + "/" + base;
  }

  /** A record whose `album` is a dict with a non-empty string `name`. */
  lemma AlbumOfRecord(entry: AssetRecord, album: string)
    requires album != ""
    requires "album" in entry && entry["album"] == Obj(map["name" := Str(album)])
    ensures AlbumName(entry) == Ok(Some(album))
  {
    AlbumNameOfString(entry, album);
  }

  /** An entry with a source and no album lands directly under a plain root. */
  lemma PlainEntryDestination(root: string, source: string)
    requires root != "" && root[|root| - 1] != '/'
    ensures var entry: AssetRecord := map[SourceKey := Str(source)];
      && AlbumName(entry) == Ok(None)
      && Destination(root, entry) == Some(root + "/" + Basename(source))
  {
    var entry: AssetRecord := map[SourceKey := Str(source)];
    assert AlbumName(entry) == Ok(None);
    DestinationWithSource(root, entry, source, None);
    DestinationLayout(root, None, source);
    assert WithSeparator(root) == root + "/";
  }

  /** A batch of three records under `root`: one with source `srcA` in the album
      `album`, one with source `srcB` and no album, one without source. The first file
      lands at root/album/<basename of srcA>, the third record is skipped, and the second
      file is written at root/<basename of srcB> exactly when its download succeeds,
      without affecting the first. */
  lemma ThreeRecordBatch(root: string, album: string, srcA: string, srcB: string, other: AssetRecord,
                         w: World, first: Bytes, status: int, second: Bytes)
    requires root != "" && root[|root| - 1] != '/'
    requires album != "" && album[0] != '/' && album[|album| - 1] != '/'
    requires SourceKey !in other
    requires first != []
    requires w.pending == [Response(200, first), Response(status, second)]
    ensures var entries := [map[SourceKey := Str(srcA), "album" := Obj(map["name" := Str(album)])],
                            map[SourceKey := Str(srcB)],
                            other];
      var (o, w1) := Run(WebFileContent, root, entries, w);
      var destA := root + "/" + album + "/" + Basename(srcA);
      var destB := root + "/" + Basename(srcB);
      && o == Ok(())
      && w1.files == (if status == 200 && second != [] then w.files[destA := first][destB := second]
                      else w.files[destA := first])
      && w1.sent == w.sent + [FileRequest(srcA), FileRequest(srcB)]
      && w1.pending == []
  {
    var a: AssetRecord := map[SourceKey := Str(srcA), "album" := Obj(map["name" := Str(album)])];
    var b: AssetRecord := map[SourceKey := Str(srcB)];
    var entries := [a, b, other];
    assert entries[1..] == [b, other] && [b, other][1..] == [other] && [other][1..] == [];
    assert w.sent + [FileRequest(srcA)] + [FileRequest(srcB)] == w.sent + [FileRequest(srcA), FileRequest(srcB)];
    var destA := root + "/" + album + "/" + Basename(srcA);
    var destB := root + "/" + Basename(srcB);
    var s1 := Step(WebFileContent, root, a, w);
    assert s1.0 == Ok(()) && s1.1.files == w.files[destA := first] &&
           s1.1.sent == w.sent + [FileRequest(srcA)] && s1.1.pending == [Response(status, second)] by {
      AlbumOfRecord(a, album);
      AlbumEntryDestination(root, album, srcA);
      StepWritesOnlyOnSuccess(root, a, w, srcA, 200, first);
    }
    var s2 := Step(WebFileContent, root, b, s1.1);
    assert s2.0 == Ok(()) && s2.1.pending == [] &&
           s2.1.files == (if status == 200 && second != [] then s1.1.files[destB := second] else s1.1.files) &&
           s2.1.sent == s1.1.sent + [FileRequest(srcB)] by {
      PlainEntryDestination(root, srcB);
      StepWritesOnlyOnSuccess(root, b, s1.1, srcB, status, second);
    }
    assert Run(WebFileContent, root, [other], s2.1) == (Ok(()), s2.1) by {
      RunCons(WebFileContent, root, [other], s2.1);
    }
    assert Run(WebFileContent, root, [b, other], s1.1) == Run(WebFileContent, root, [other], s2.1) by {
      RunCons(WebFileContent, root, [b, other], s1.1);
    }
    assert Run(WebFileContent, root, entries, w) == Run(WebFileContent, root, [b, other], s1.1) by {
      RunCons(WebFileContent, root, entries, w);
    }
  }
}
