# facebook-backup, modelled in Dafny

This project models `facebook-backup.py`, a small script that backs up a Facebook
account. Its `FacebookConn` class does four things:

- It holds an access token.
- It queries the graph API one page at a time (`graph_get`), writing the token into the
  caller's query dict and turning the reply into a document, the empty object or an
  exception.
- It follows `paging.cursors.after` cursors until the pages run out (`graph_get_all`),
  joining every page's `data` list.
- It downloads every photo or video entry that has a `source` (`download_all` with
  `get_web_file`). Each file goes under the backup folder, in a sub-folder named after its
  album when it has one.

The outside world is made explicit:

- The HTTP transport is a `Transport` object holding a scripted list of replies. Every
  request takes the next reply. Once the list is used up, a request fails as a network
  error would.
- `json.loads` is a decoder function passed to the connection. It returns `None` where the
  real decoder raises `ValueError`.
- The disk is a `FileSystem` object: a set of directories and a map from file paths to
  contents.
- Python exceptions are the `Raise` case of an `Outcome`:
  - `GraphError`: the script's `FbGenericException`.
  - `TypeFault`: an `AttributeError` or `TypeError` from a value of the wrong kind.
  - `NameFault`: `NameError`.
  - `TransportFault`: an exception raised by the transport.
  - `IOFault`: `IOError` from `open` on a path whose folder does not exist.

Modules:

- `Values`: JSON values, bytes, outcomes and the `.get` chain.
- `Http`: the scripted transport.
- `Graph`: the token overwrite and the reply classification of `graph_get`.
- `Paging`: the pagination walk as a function, with its lemmas and the as-written variant.
- `Paths`: `os.path.join` and `os.path.basename`.
- `LocalFs`: the file system class.
- `Download`: one turn of the download loop and the whole loop as functions, a reference
  plan of writes and requests, and their lemmas.
- `Backup`: the `FacebookConn` class. Its methods update the token, the transport, the
  caller's dict and the file system in place, and each is proved against the functions
  above.

## Model

| member | source | states |
|---|---|---|
| Values.Lookup | facebook-backup.py:82-83 | a chain of `.get` calls yields None for a missing key and raises on a value that is not a dict |
| Http.Transport.Get | facebook-backup.py:51 | a request receives the next scripted reply (a transport failure once the script is used up), consumes it, and is logged in order |
| Graph.Authorize | facebook-backup.py:62-64 | after the overwrite the dict holds the connection's token under `access_token`, every other key keeps its value, and no other key appears |
| Graph.EnvelopeFailure | facebook-backup.py:82-84 | a decoded error body raises an error carrying `error.code` and `error.error_subcode`, each null when absent; an `error` that is not a dict, or a body that is not a dict, raises TypeError instead |
| Graph.Classify | facebook-backup.py:69-86 | a 200 with a decodable non-empty body returns the document; a non-200 with one raises the envelope's error; an empty or undecodable body returns `{}` whatever the status; only the transport's own failure escapes otherwise |
| Graph.StatusDecidesReading | facebook-backup.py:70-84 | the same error envelope is returned as data under status 200 and raised as an error under any other status |
| Graph.Get | facebook-backup.py:59-86 | a call that returns normally has consumed exactly one reply |
| Paging.NextCursor | facebook-backup.py:95-98 | the loop stops at an empty page or one whose `after` cursor is missing or empty; it goes on only with a non-empty cursor found at `paging.cursors.after`; it raises exactly when the page is non-empty and `paging` or `cursors` is not a dict |
| Paging.DataOf | facebook-backup.py:94 | a page's `data` list is returned as it is, and a missing `data` reads as the empty list; it raises exactly when the page is not a dict or its `data` is not a list |
| Paging.ReplaceCursor | facebook-backup.py:64 | writing a new cursor into a dict that already holds a cursor and the token, then the token again, gives the original dict with the new cursor and the token |
| Paging.Walk | facebook-backup.py:95-101 | no contract of its own; its behaviour is stated by `Paging.WalkCollectsData`, `Paging.WalkReturns`, `Paging.WalkRaises`, `Paging.WalkFollowsCursors` and `Paging.WalkLeavesLastQuery` |
| Paging.GetAll | facebook-backup.py:88-103 | no contract of its own; its behaviour is stated by `Paging.GetAllCollectsData`, `Paging.GetAllReturns`, `Paging.GetAllRaises`, `Paging.GetAllFollowsCursors` and `Paging.GetAllLeavesLastQuery` |
| Paging.WalkCollectsData | facebook-backup.py:95-101 | the loop takes one reply per follow-up request; when it returns normally, every reply it took was a usable page, and it returns what it had plus the items of exactly those replies, in arrival order |
| Paging.WalkFollowsCursors | facebook-backup.py:95-100 | each follow-up request carries the cursor of the page just before it, and a loop that returns normally stopped at a page without a cursor |
| Paging.GetAllCollectsData | facebook-backup.py:88-103 | `graph_get_all` returns normally only when every reply it took was a usable page, and then returns the concatenation of the `data` of every page it fetched, in arrival order with nothing dropped or merged; it never sends more requests than there are replies plus one |
| Paging.GetAllFollowsCursors | facebook-backup.py:93-100 | the first request is the caller's query with the token; every later request is the caller's query with the previous reply's cursor as `after` and the token; a normal return comes only after a page without a cursor |
| Paging.WalkReturns | facebook-backup.py:95-101 | when the next `n` replies are usable pages, each page before them carries a cursor and the last carries none, the loop sends exactly `n` requests, consumes exactly those replies and returns what it had plus their items |
| Paging.WalkRaises | facebook-backup.py:95-101 | when the replies before the `n`-th follow-up are usable pages with cursors and the `n`-th raises (in `graph_get`, in the `data` read or in the cursor lookup), the loop raises that same exception after exactly `n` requests and returns nothing it collected |
| Paging.GetAllRaises | facebook-backup.py:88-103 | when the first `n - 1` replies are usable pages with cursors and the `n`-th raises (in `graph_get`, in the `data` read or in the cursor lookup; a used-up script is a transport failure), `graph_get_all` raises that same exception after exactly `n` requests, with no partial list |
| Paging.GetAllReturns | facebook-backup.py:88-103 | when the first `n` replies are usable pages, all but the last carry a cursor and the last carries none, `graph_get_all` returns normally after exactly `n` requests with the items of those `n` pages, in order |
| Paging.GetAllLeavesLastQuery | facebook-backup.py:90-100 | the caller's dict is left holding exactly what the last request carried |
| Paging.NoPages | facebook-backup.py:93-98 | a first page without `data` and without paging gives the empty list after one request |
| Paging.PyAdd | facebook-backup.py:101 | Python's `+` joins two lists and raises on a dict |
| Paging.WalkAsWritten | facebook-backup.py:95-101 | no contract of its own; its behaviour is stated by `Paging.EmptyFollowUpPageAsWritten` |
| Paging.GetAllAsWritten | facebook-backup.py:88-103 | no contract of its own; its behaviour is stated by `Paging.EmptyFollowUpPageAsWritten` and `Paging.NoDataFirstPageAsWritten` |
| Paging.DataAsWritten | facebook-backup.py:94 | as written, a missing `data` reads as the empty dict |
| Paging.EmptyFollowUpPageAsWritten | facebook-backup.py:100-101 | as written, an empty follow-up page makes the call raise TypeError; with a missing `data` read as the empty list, the items collected so far are returned |
| Paging.NoDataFirstPageAsWritten | facebook-backup.py:93-95 | as written, a call whose only page is empty returns the empty dict, not a list |
| Paths.Basename | facebook-backup.py:137 | the basename never starts with '/' |
| Paths.BasenameShape | facebook-backup.py:137 | the basename contains no '/', ends the path, and follows its last '/' |
| Paths.Join | facebook-backup.py:131 | an absolute second part replaces the first; otherwise the second part is appended after one '/' when the first is non-empty and does not end in '/', and directly otherwise |
| Paths.JoinEndsWith | facebook-backup.py:131 | the joined path ends with the second part |
| Paths.BasenameAfterSlash | facebook-backup.py:137 | the basename of `dir/name`, for a name without '/', is that name |
| LocalFs.AfterMakeDirs | facebook-backup.py:132-136 | `makedirs` either creates the directory and its missing parents and nothing else, or fails when a path on the way is a file and then creates nothing |
| LocalFs.FileBlocksMakeDirs | facebook-backup.py:132-136 | `makedirs` on a path that is a file fails |
| LocalFs.FileSystem.Exists | facebook-backup.py:132 | no contract of its own: a path exists when it is a directory or a file; used by `Backup.FacebookConn.DownloadEntry`, whose contract states the folder creation |
| LocalFs.FileSystem.MakeDirs | facebook-backup.py:134 | the directory set becomes the one `makedirs` leaves and the files are unchanged; the result reports the failure |
| LocalFs.FileSystem.Write | facebook-backup.py:141-142 | the file at the path then holds exactly the content; nothing else changes |
| Download.WebFileContent | facebook-backup.py:49-57 | the content is returned exactly when the status is 200 and the body is non-empty, and it is the body; any other reply gives None; only a transport failure raises |
| Download.WebFileContentAsWritten | facebook-backup.py:52-55 | as written, any reply other than a 200 with a body raises NameError |
| Download.AlbumName | facebook-backup.py:129-131 | an entry without `album`, or whose `album` dict has no truthy `name`, has no album folder; an `album` that is not a dict, or a truthy name that is not a string, raises; an album folder name is never empty |
| Download.AlbumNameOfString | facebook-backup.py:129-131 | a string album name is the album folder exactly when it is non-empty |
| Download.Destination | facebook-backup.py:127-137 | no contract of its own; its behaviour is stated by `Download.DestinationLayout`, `Download.StepFetches` and `Download.PlanWritesDestinations` |
| Download.DestinationLayout | facebook-backup.py:128-137 | for an album name that is non-empty and has no '/' at either end, the destination is the root, then '/' unless the root is empty or ends in '/', then `album/` when there is an album, then the basename of the source |
| Download.EnsureDir | facebook-backup.py:132-136 | no contract of its own; its behaviour is stated by `LocalFs.AfterMakeDirs` and `Download.StepEnsuresFolder` |
| Download.FetchInto | facebook-backup.py:139-142 | no contract of its own; its behaviour is stated by `Download.StepFetches` and `Download.StepWritesOnlyOnSuccess` |
| Download.FetchIntoAsWritten | facebook-backup.py:139-142 | no contract of its own; its behaviour is stated by `Download.MissingFolderAsWritten` and `Download.StepAgreesWhenFolderExists` |
| Download.Step | facebook-backup.py:124-142 | no contract of its own; its behaviour is stated by `Download.StepFetches`, `Download.StepEnsuresFolder`, `Download.StepFollowsPlan` and `Download.StepWritesOnlyOnSuccess` |
| Download.StepAsWritten | facebook-backup.py:124-142 | no contract of its own; its behaviour is stated by `Download.MissingFolderAsWritten` and `Download.StepAgreesWhenFolderExists` |
| Download.Run | facebook-backup.py:123-142 | no contract of its own; its behaviour is stated by `Download.RunFollowsPlan`, `Download.RunChangesOnlyDestinations` and `Download.RunIdempotent` |
| Download.RunAsWritten | facebook-backup.py:123-142 | no contract of its own; its behaviour is stated by `Download.NotFoundAbortsAsWritten` and `Download.RunAgreesWhenFoldersExist` |
| Download.StepAgreesWhenFolderExists | facebook-backup.py:124-142 | when the destination folder already exists, the corrected turn and the turn as written give the same outcome and the same state |
| Download.RunAgreesWhenFoldersExist | facebook-backup.py:123-142 | when every entry's destination folder already exists, the corrected loop and the loop as written give the same outcome and the same state |
| Download.StepFollowsPlan | facebook-backup.py:124-142 | one turn gives the planned outcome, sends the planned requests, applies the planned writes and never removes a directory |
| Download.RunFollowsPlan | facebook-backup.py:123-142 | the loop gives the planned outcome, sends the planned requests in order, applies the planned writes in order and never removes a directory |
| Download.ApplyWritesOverrides | facebook-backup.py:141-142 | writing files one after another overrides each written path with its last content |
| Download.PlanStepWritesDestination | facebook-backup.py:137-142 | a turn writes at most one file, at its entry's destination |
| Download.PlanWritesDestinations | facebook-backup.py:123-142 | every file the loop writes is the destination of one of the entries |
| Download.RunChangesOnlyDestinations | facebook-backup.py:123-142 | no file outside the entries' destinations appears or changes |
| Download.RunIdempotent | facebook-backup.py:123-142 | running the loop again on the same entries against the same replies gives the same outcome and the same files |
| Download.CountSourcedAppend | facebook-backup.py:124-126 | the running count grows by one exactly at an entry with `source` |
| Download.CountSourcedBound | facebook-backup.py:120-126 | the count never exceeds the number of entries |
| Download.PlanFetchesInOrder | facebook-backup.py:123-139 | a loop that completes fetched the source of every entry that has one, once each, in input order, and nothing else: as many fetches as the count reaches |
| Download.StepFetches | facebook-backup.py:127-142 | a turn for an entry with a source and a usable album fetches the source once; its outcome is the fetch's, and only the entry's destination is written, with the content, when there is some |
| Download.StepEnsuresFolder | facebook-backup.py:128-136 | with the folder creation as intended, the destination folder exists before the file is written, unless a file in the way made `makedirs` fail |
| Download.MissingFolderAsWritten | facebook-backup.py:128-142 | as written, an entry without album under a root folder that does not exist yet raises IOError at `open` after its download; with the folder created first, the file is written |
| Download.StepWritesOnlyOnSuccess | facebook-backup.py:137-142 | an entry's file is written with the fetched bytes exactly when the reply is a 200 with a non-empty body; otherwise no file changes |
| Download.NotFoundAbortsAsWritten | facebook-backup.py:52-55 | as written, a 404 for the first file ends the loop with NameError before the second is fetched; with None returned, the second file is written |
| Download.ThreeRecordBatch | facebook-backup.py:123-142 | for an entry with an album, one without, and one without source: the first lands in the album folder, the third is skipped, and the second is written exactly when its download succeeds |
| Backup.QueryParams.constructor | facebook-backup.py:107-108 | the caller's dict starts with the given entries; `graph_get` and `graph_get_all` then update it in place |
| Backup.StartQuery | facebook-backup.py:62-63 | no contract of its own: the caller's dict, or a fresh empty one when there is none, as at lines 62-63 and 90-91; used by `Backup.FacebookConn.GraphGet` and `Backup.FacebookConn.GraphGetAll` |
| Backup.FacebookConn.constructor | facebook-backup.py:31-32 | the connection starts with the given token |
| Backup.FacebookConn.SetAccessToken | facebook-backup.py:46-47 | only the token changes |
| Backup.FacebookConn.GetWebFile | facebook-backup.py:49-57 | one GET is sent for the file, and its result is that of `WebFileContent` on the reply |
| Backup.FacebookConn.GraphGet | facebook-backup.py:59-86 | the caller's dict (or a fresh one) receives the token, one request with that dict is sent, and the result is the classified reply |
| Backup.FacebookConn.GraphGetAll | facebook-backup.py:88-103 | the loop's outcome, the requests it sends, the replies it consumes and the dict it leaves are those of the `GetAll` walk |
| Backup.FacebookConn.GetUserInfo | facebook-backup.py:104-105 | one `graph_get` on `/me` without parameters |
| Backup.FacebookConn.GetListing | facebook-backup.py:107-117 | the result, the requests sent and the replies consumed are those of `GetAll` on the edge, with a fresh dict holding only the requested fields |
| Backup.FacebookConn.GetUserPhotos | facebook-backup.py:107-108 | every item of `/me/photos/uploaded` with the photo fields |
| Backup.FacebookConn.GetUserTaggedPhotos | facebook-backup.py:110-111 | every item of `/me/photos` with the photo fields |
| Backup.FacebookConn.GetUserVideos | facebook-backup.py:113-114 | every item of `/me/videos/uploaded` with the video fields |
| Backup.FacebookConn.GetUserTaggedVideos | facebook-backup.py:116-117 | every item of `/me/videos` with the video fields |
| Backup.FacebookConn.DownloadAll | facebook-backup.py:119-142 | the loop's outcome, directories, files, requests and consumed replies are those of `Run`, while the running count equals the number of entries with `source` seen so far |
| Backup.FacebookConn.DownloadEntry | facebook-backup.py:124-142 | one turn's outcome, directories, files, requests and consumed replies are those of `Step` |

## Left out

- The `httplib2` transport, proxy set-up and timeout: the connection is given a
  `Transport`, and a timeout is one more transport failure.
- `urljoin` and `urlencode`: a graph request is recorded as its edge path and its
  parameter dict, not as a URI string.
- The internals of `json.loads`: it is a decoder function, and JSON floating-point numbers
  are not in the value type.
- All logging, including the per-file progress line that uses `count` and `total`.
- `open()` and `write()` failures other than a missing backup folder, which the as-written
  variant models: other disk errors are not modelled.
- Download.Step: the corrected turn records a write even when `makedirs` failed because a
  file was in the way. On a real disk that case raises `IOError`.
- Download.Step and Backup.FacebookConn.DownloadAll create the backup folder itself when it
  is missing, as evidently intended. `Download.StepAsWritten` creates only album folders,
  as the code does.
- `os.makedirs` fails only when a path on the way is a file. Permissions and other causes
  are not modelled.
- `os.path.exists` is true for any directory or file in the model. Paths are compared as
  strings, with no normalisation of `.`, `..` or repeated '/'.
- Entries are dicts (maps); a list or string entry in `data` is not modelled.
- Paging.DataOf: a `data` member that is not a list raises at once. As written, a string
  `data` on a single page would be returned as is, and string pages would be
  concatenated. `Paging.PyAdd` and `Paging.WalkAsWritten` keep that behaviour for the
  as-written variant.
- Pagination against an API that always returns a cursor: the scripted list of replies
  bounds the walk.
- The `__main__` script (facebook-backup.py:144-185).
- Default arguments: the connection's `access_token=''` and `dev_config=None`, and
  `download_all`'s `backup_subfolder=BACKUP_DEFAULT_FOLDER` ('facebook_backup'). Every
  model member takes these as explicit parameters.
- Where the behaviour described for the program and the code differ, the model follows
  the code:
  - A body that does not decode makes `graph_get` return `{}` rather than raise.
  - A transport failure while downloading a file ends `download_all` rather than skipping
    that file.
  - A failed `makedirs` is only logged; the file is still fetched, and the model
    records the write.

## Findings

| source | as written | input that shows it | evidently intended | confidence | as-written member | corrected member |
|---|---|---|---|---|---|---|
| facebook-backup.py:55 | the warning formats `url`, a name defined nowhere, so the failure branch of `get_web_file` raises `NameError` and `download_all` stops at the first missing file | a file reply with status 404 and an empty body, followed by a second entry | log the failure and return None, so the loop goes on | high; not executed | Download.NotFoundAbortsAsWritten | Download.WebFileContent |
| facebook-backup.py:128-141 | only an album folder is created; the backup folder itself never is, so for an entry without album `open(dest_file, "w")` raises `IOError` when that folder is missing, and the loop stops | an entry with a `source` and no `album`, a backup folder that does not exist yet, and a 200 reply with a body | create the destination folder, album or not, before writing | high; not executed | Download.MissingFolderAsWritten | Download.StepEnsuresFolder |
| facebook-backup.py:94-101 | a missing `data` defaults to `{}`, so joining it with the list collected so far raises `TypeError`, and a lone empty page returns a dict | a page with one item and a cursor, followed by a reply with an empty body | treat a missing `data` as the empty list | high; not executed | Paging.EmptyFollowUpPageAsWritten | Paging.GetAllCollectsData |
