# Filevine → S3 mirror, modelled in Dafny

This project models the core of a small document mirror, written in Python, together with its routing and command-line path logic.

- **Mirror.** The mirror copies a Filevine project's folder tree and documents into an S3 bucket. It has three jobs:
  - It discovers the folders of a project: the root listing, then a breadth-first walk over the children listings.
  - It resolves each folder id to its full path by climbing parent links, using a path cache.
  - It gives every document a folder path, creates a zero-byte `.placeholder` object for every level of every path, fetches download links in batches, downloads each file and stores it under `<project prefix><folder path>/<filename>`, tagged with its document id.
- **Webhook router.** A webhook router decides, from the event body, what happens to each event:
  - a background full sync;
  - a refusal;
  - a skip, when the project is not on the allow-list;
  - a background seed of a project that has nothing stored yet;
  - the single-document upload handler or the delete handler;
  - a project-wide sync.
- **Command-line uploader.** The uploader resolves a sub-path under a project's root folder:
  - the match on each segment ignores case;
  - it guesses the root as the most frequent parent id;
  - it tries an ordered list of fallback variants.

The remote document API, the object store and the HTTP layer are not code here. The model takes them as values:

- a folder endpoint `map<int, FolderRecord>`, where a missing id is a fetch that fails;
- paginated listings as sequences of pages;
- oracles `nat -> Reply` for the n-th attempt of a request;
- a bucket class whose `objects: map<string, Obj>` the store operations update in place;
- predicates saying which store calls fail.

Parent chains are assumed to end: a `rank` function decreases along every parent link (`Remote.Ranked`). The children listings that `fetch_complete_folder_structure` walks without a visited set are assumed to form a finite tree (`Complete.KidsRanked`), and a paged children listing is assumed to end (`Uploader.Finite`).

The modules follow the program's layers:

- `Text` and `Json`: Python string methods, and decoded JSON with Python truthiness and `int()`.
- `Names`: `sanitize`, `_to_s3_key`, `_path_levels` and the content type.
- `Retry`: `_request` and the backoff.
- `Remote` and `Resolver`: folder records, true full paths, `resolve_folder_path` and `resolve_path_via_parents`.
- `Discovery`: `enumerate_all_folders`.
- `Complete`: `fetch_complete_folder_structure`.
- `Documents` and `DocMapping`: `ensure_all_folders_and_map_docs`.
- `Links`: `get_download_links_batch`.
- `Store`: the bucket.
- `Sync`: `sync_documents`.
- `Handlers`: the upload and delete webhooks.
- `Router`: `lambda_handler`.
- `Uploader`: the command-line path walk.

Where the code and its own comments disagree, the model follows the code:

- `resolve_folder_path` says it does not cache a fallback. It is true that the folder whose fetch failed is not cached. A child whose parent cannot be fetched is still cached, as `Unnamed/<name>` (`Resolver.ResolveChild`).

## Model

| member | source | states |
|---|---|---|
| Retry.BackoffMs | utils.py:127-134 | The deterministic wait, in milliseconds, is at most 8000. It is either 8000 or 500·2^attempt. |
| Retry.BackoffNonDecreasing | utils.py:127-134 | A later attempt never waits less than an earlier one. |
| Retry.BackoffSchedule | utils.py:127-134 | The waits are 500, 1000, 2000 and 4000 ms, then 8000 from the fifth attempt on. |
| Retry.Request | utils.py:189-229 | Covers the whole `_request` loop. The call ends at the first reply that passes. The headers are refreshed exactly when an earlier attempt got a 401, never twice, and only when the refresh succeeds; a 401 that no successful refresh answers ends the call with that 401. It backs off on 429, 5xx and network errors with the scheduled waits, for at most 5 backoffs. It propagates any other error at once, and makes at most 7 attempts. |
| Json.Or | utils.py:242-247 | Python's `a or b`: the result is truthy iff either argument is, and it is `a` when `a` is truthy. |
| Json.ParseIntOfIntToString | utils.py:1160 | `int(str(i)) == i` for every integer. The document id stored as text is read back as the same id. |
| Json.NativeInt | utils.py:99-105 | One structured parent field gives an id exactly when it is an object with a non-null `native` that `int()` accepts, and the id is `int(native)`. |
| Json.FolderLinkId | utils.py:107-112 | An id is found exactly when `/folders/<digits>` occurs somewhere in the link text. It is the value of the digits that follow the leftmost occurrence. |
| Json.ExtractParentId | utils.py:93-116 | `parentId`, `parentFolderId` and `parentFolder` are tried in that order, and the first usable one wins. Otherwise the `links.parent` match is used (the leftmost `/folders/<digits>` of a string link), otherwise `None`. |
| Json.ExtractProjectId | utils.py:240-252 | The project id is the first truthy of `projectId`, `ProjectId`, `payload.projectId` and `recordId`, through `int()`. Each case is stated, including a `payload` object whose `projectId` is falsy. It is 0 when `int()` fails or nothing is present, and when `payload` is present but not an object. |
| Names.DropIllegal | utils.py:257 | The result has no illegal character. Every other character keeps its count. A string without illegal characters is returned unchanged. |
| Names.CollapseSpace | utils.py:258 | Whitespace runs become single plain spaces. The result is empty iff the input is. A leading space is kept. No illegal character is introduced. |
| Names.CollapseSpaceKeeps | utils.py:258 | A string whose whitespace is already single plain spaces is unchanged. |
| Names.Sanitize | utils.py:254-260 | The result is non-empty and free of illegal characters. It has no two adjacent whitespace characters, and it neither starts nor ends with `.`. An empty name gives `Unnamed`. |
| Names.SanitizeKeepsTidy | utils.py:254-260 | `sanitize` returns an already tidy segment unchanged. |
| Names.SanitizeDotSpace | utils.py:254-260 | A name that starts with `". "` keeps the space after sanitizing. |
| Names.SanitizeNotIdempotent | utils.py:254-260 | For every tidy `t`, `sanitize(sanitize(". " + t)) == t`, which differs from `sanitize(". " + t)`. |
| Names.ToS3Key | utils.py:74-77 | The joined key neither starts nor ends with a slash. |
| Names.ToS3KeyPair | utils.py:74-77 | Two clean paths are joined with exactly one slash, and the result is clean. |
| Names.ToS3KeyTriple | utils.py:74-77 | A prefix ending in one slash, a clean path and a clean name give `prefix/path/name`. |
| Names.LevelsFrom | utils.py:80-90 | The i-th level is the first i+1 segments joined with `/`. |
| Names.PathLevels | utils.py:80-90 | There is one level per non-empty segment. Level i joins the first i+1 segments. |
| Names.LastLevelIsPath | utils.py:80-90 | The deepest level of a well-formed folder path is the path itself. |
| Names.Extension | utils.py:52-71 | The extension is empty, or a dotted suffix of the name with no slash in it. |
| Names.GuessContentType | utils.py:52-71 | A non-empty registry answer wins. Otherwise the lower-cased extension's fallback entry is used, otherwise `application/octet-stream`. |
| Names.Disposition | utils.py:921 | `inline` exactly for `image/` types, otherwise `attachment`. |
| Names.SanitizedIsPath | utils.py:254-260 | A sanitized name is a one-segment well-formed path. |
| Names.JoinSplit | fv_uploader_inbetween_original.py:601 | Splitting on a separator and joining with it gives the string back. |
| Remote.NameOf | utils.py:294-303 | The name `_get_folder_info` reports is a well-formed segment without a slash. |
| Remote.ParentOf | utils.py:350 | A parent is present exactly when the payload gives a non-zero parent id. |
| Remote.ChainPathStep | utils.py:350-362 | A folder's true path is its parent's true path, a slash and its own name. A parentless folder's path is its own name. |
| Remote.ChainPathWellFormed | utils.py:350-362 | Every true full path is a well-formed relative path. |
| Resolver.Resolve | utils.py:333-366 | Covers every case of `resolve_folder_path`. An absent id gives the sanitized fallback, uncached. A cache hit is returned as is. An unfetchable folder raises in strict mode and otherwise gives the fallback, uncached. A root folder gives its name, cached. No existing entry is altered and a raise changes nothing. Non-strict mode always resolves. |
| Resolver.ResolveChild | utils.py:350-366 | A child's path is its parent's path, a slash and its name, and it is cached. When the parent cannot be resolved, strict mode raises and non-strict mode caches `Unnamed/<name>`. |
| Resolver.ResolveWellFormed | utils.py:333-366 | Resolution keeps the cache's paths well formed. Every resolved path is well formed. |
| Resolver.ResolveStrictSound | utils.py:333-366 | Over a sound cache, strict mode returns the folder's true full path and keeps the cache sound. It raises exactly when that path cannot be fetched. |
| Resolver.FolderResolver.constructor | utils.py:333-366 | The path cache starts empty. |
| Resolver.FolderResolver.ResolveFolderPath | utils.py:333-366 | The method's result and its new `cache` field are those of `Resolve` on the old cache. |
| Resolver.ClimbFindsChainPath | utils.py:686-716 | Over a sound cache, climbing parents succeeds exactly when the true path can be fetched. The climbed names, joined, form that path. |
| Resolver.ResolvePathViaParents | utils.py:686-716 | 0 gives `None`. A cached id gives its entry. Otherwise the climbing loop returns the joined names, caching the path, or `None` with the cache unchanged when some folder cannot be fetched. |
| Discovery.CollectIds | utils.py:280-283 | The non-zero ids of a page are appended in order. |
| Discovery.RootRound | utils.py:276-291 | One page of the root loop: it advances by one page, or stops with every listed id collected. |
| Discovery.FetchRootFolders | utils.py:273-292 | The result is exactly the non-zero ids of the pages read until a failure or a page without more. All of them are non-zero. |
| Discovery.DocumentsIsTidy | utils.py:333 | The default fallback `Documents` is already a clean segment. |
| Discovery.ResolveListed | utils.py:404-414 | A listed child gets a well-formed path: its cached path, or the sanitized fallback. A fetchable child is cached. |
| Discovery.ScanPage | utils.py:399-420 | Every child on the page is queued unless already visited. Its path is collected and the cache only grows. |
| Discovery.ScanChildren | utils.py:397-426 | The whole children loop of one folder: every listed child is queued or visited, and has its path collected. |
| Discovery.WalkStart | utils.py:388-392 | The walk invariant holds with the roots queued. |
| Discovery.WalkVisit | utils.py:391-426 | Visiting the head of the queue keeps the walk invariant. |
| Discovery.WalkDone | utils.py:390-429 | When the queue is empty: every root is visited, the visited set is closed under listed children, and every fetchable visited folder has its cached path in the result. |
| Discovery.ResolveRoots | utils.py:375-385 | Every fetchable root is cached. The cache only grows and stays well formed. The new cache is the left fold of `Resolve` over the roots. |
| Discovery.WalkQueue | utils.py:390-426 | The breadth-first loop ends with the walk invariant and an empty queue. |
| Discovery.EnumerateFolders | utils.py:369-429 | No roots gives no paths. Otherwise the result contains every path cached once the roots are resolved (the old entries and the roots' ancestors), and that cache is the fold of `Resolve` over the roots. The visited set is closed under children. Every fetchable visited folder has its path in the result, and the result holds only well-formed cached or fallback paths. |
| Discovery.EnumerateAllFolders | utils.py:369-429 | The same, with `Documents` as the fallback of the listing loops. |
| Complete.ChildName | utils.py:583-591 | A child has a name iff its listed name is non-empty or its record can be fetched. That name is a well-formed segment. |
| Complete.TakenWeight | utils.py:597-609 | The children queued weigh no more than all the children listed. This is the termination measure of the queue. |
| Complete.SizeUnfold | utils.py:569-614 | A folder's share of the walk is one plus its children's. |
| Complete.ResolveParent | utils.py:593-601 | An unmapped parent is resolved non-strictly with the fallback `""`, which gives a non-empty well-formed path. |
| Complete.AddChild | utils.py:580-609 | A child without an id or a name is skipped. Otherwise it is mapped to `parent/name` and queued, and nothing else changes. |
| Complete.AddPage | utils.py:578-612 | Every accepted child of a page is queued, in order. |
| Complete.AddChildren | utils.py:574-612 | The children loop queues exactly the accepted children of every page read. |
| Complete.DrainStart | utils.py:559-570 | Before the loop, with every queued folder mapped, the loop's knowledge holds with nothing dequeued. |
| Complete.DrainStep | utils.py:570-612 | Dequeuing the head and queueing its taken children, all mapped, keeps the loop's knowledge with the head dequeued. |
| Complete.DrainDone | utils.py:569-614 | Once the queue is empty, the dequeued folders hold the first queue, are closed under taken children, and are all mapped. |
| Complete.MapRoots | utils.py:558-567 | Every root is mapped and queued, in order. |
| Complete.DrainOne | utils.py:570-612 | One round of the queue loop keeps the loop's knowledge with the head dequeued, and the queue's weight drops. |
| Complete.DrainQueue | utils.py:569-614 | The queue loop ends and keeps every mapped folder and well-formed paths. The set of dequeued folders holds the whole first queue, is closed under the children taken from each, and is entirely mapped. |
| Complete.WalkTree | utils.py:558-614 | Every root is mapped and every path is well formed. The folders the walk reaches include the roots, are closed under the children taken from each, and are all mapped. |
| Complete.MapDocFolder | utils.py:625-637 | A document's folder id gets its cached path or the fallback. A fetchable one is cached. |
| Complete.MapDocFolders | utils.py:616-641 | Exactly the distinct folder ids of the documents are mapped, each to its cached path or the fallback. |
| Complete.FetchStructure | utils.py:527-646 | The result has well-formed paths. Every listed root is mapped, and so is every folder reached from the roots through taken children. Without roots, exactly the documents' folder ids are mapped, each from the resolver. |
| Complete.FetchCompleteFolderStructure | utils.py:527-646 | The same, with `Documents` as the fallback. |
| DocMapping.LooseFolder | utils.py:740-743 | The last-resort path is well formed. |
| DocMapping.PathForWellFormed | utils.py:729-745 | With a well-formed map and cache, a document gets a well-formed path and the cache stays well formed. |
| DocMapping.FolderPathsWellFormed | utils.py:729-745 | Every document gets a well-formed path. |
| DocMapping.PathForSound | utils.py:729-745 | With a sound map and cache, a document gets its true path (its folder's full path, else the loose name), and the cache stays sound. |
| DocMapping.FolderPathsSound | utils.py:718-759 | With a sound folder map, every document gets its true path, whatever the order of the documents. |
| DocMapping.PlaceDoc | utils.py:732-744 | The precedence for one document: the map's non-empty entry, else the parent climb with the shared cache, else the loose folder. |
| DocMapping.MapStep | utils.py:729-745 | One round of the loop appends the document with its path and collects that path. |
| DocMapping.MapDocs | utils.py:729-745 | One output per input document, in order, with the paths of `PathFor`. The path set is the map's values plus the documents' paths. |
| DocMapping.EnsureAllFoldersAndMapDocs | utils.py:718-759 | The same with `Documents`, which is also added to the path set. |
| Links.LinkOf | utils.py:851 | A non-object entry has no link. The batch loop never reads such an entry when it is truthy: `BatchesShaped` keeps truthy non-objects out of batch replies, where the source would raise. |
| Links.PostBatch | utils.py:815-844 | `post_batch` makes at most 6 POSTs of the same chunk. Every POST but the last neither passed nor failed hard. The number of tries follows the retry rule (`RetriedRun`): stop at the first reply that passed or failed hard, or after the sixth try. |
| Links.TakeLinks | utils.py:849-853 | The ids offered a truthy link are added, each with its last offered link. Other ids keep their links. |
| Links.Offered | utils.py:849-853 | An id is offered exactly when an entry at its position carries a truthy link. |
| Links.SingleLink | utils.py:869-871 | A link read by the per-id fallback is truthy. |
| Links.SingleLinkOffers | utils.py:869-871 | The link the fallback reads for an id is one the reply offers for it. |
| Links.SingleOffersOnly | utils.py:869-871 | A single-id reply offers a link only for that id, and it is the link the fallback reads. |
| Links.FetchOne | utils.py:860-888 | At most 6 single-id POSTs. It stops at the first reply with a link or a hard error, and otherwise spends all retries. The number of tries follows the retry rule (`RetriedRun`). |
| Links.PostChunk | utils.py:846-856 | Every id of the chunk is sent. Every link kept was drawn from some reply. No link is lost, and every id a reply in the log offered a link for has one. |
| Links.ChunkCovers | utils.py:846-856 | After the POSTs of one chunk, every id some logged reply offered a link for is kept, given that the last reply's offers were taken. |
| Links.ChunkPhase | utils.py:846-856 | The POST log is the chunks of ten of the ids, in order, each POSTed as often as the retry rule says (`ChunkLog`). Every id is sent. Every link belongs to a requested id and was drawn from a reply. Every id a batch reply offered a link for has one. |
| Links.Missing | utils.py:859 | Exactly the ids still without a link. |
| Links.FallbackPhase | utils.py:860-888 | The new POSTs are the missing ids alone, in order, each POSTed as often as the retry rule says (`SingleLog`). No link is lost, every link was drawn from a reply, and every id a reply in the log offered a link for has one. |
| Links.FetchCovers | utils.py:860-888 | After the single-id POSTs for one id, every id some logged reply offered a link for is kept, given that a link read at the end was recorded. |
| Links.GetDownloadLinksBatch | utils.py:799-890 | No ids means no request. Every link is truthy, belongs to a requested id and was drawn from a reply. Conversely, every id any reply offered a link for gets one. Every id is sent, and an id left without a link was retried alone. The POST log is the chunks of ten in order, then each id no chunk reply offered a link for alone, in order, each request tried as often as the retry rule says, one to six times (`LogShaped`). |
| Links.ChunkLogStep | utils.py:846-848 | POSTing the next chunk as often as the retry rule says extends the chunk log (`ChunkedSoFar`) by exactly that chunk and its run. |
| Links.SingleLogStep | utils.py:860-861 | POSTing the next missing id alone as often as the retry rule says extends the fallback log (`SinglesSoFar`) by exactly that id and its run. |
| Links.LogShapedFrom | utils.py:846-888 | A chunk log followed by a fallback log over the ids the chunk replies left without a link has the shape `LogShaped` states. |
| Links.ChunkRound | utils.py:846-856 | One round of the chunked pass keeps the loop's facts (`ChunkPassSoFar`): at most six POSTs per chunk, every link belongs to a requested id and was drawn from a reply, every offered link is kept, and the ids of the chunks so far were sent. The chunk was POSTed as often as the retry rule says. |
| Links.FallbackNext | utils.py:859-888 | One round of the fallback keeps the loop's facts (`FallbackSoFar`): the log only grows, no link is lost, every link was drawn from a reply, and the next id was POSTed alone as often as the retry rule says. |
| Links.BatchOutcome | utils.py:849-853 | After both phases every link is truthy, every link a logged reply offered is kept, and every requested id went out in some request. |
| Links.RunsUnique | utils.py:815-843 | The retry rule fixes every request's number of tries: two run logs of the same requests over the same replies have the same tries. |
| Links.MissingUnoffered | utils.py:858 | When the chunked pass kept a link for exactly the ids some reply offered one for, the ids left for the fallback are those no chunk reply offered a link for, in order (`Unoffered`). |
| Links.LogDetermined | utils.py:846-888 | The replies fix the whole POST log: two logs of the `LogShaped` shape for the same ids are equal. |
| Store.Levels | utils.py:896-915 | The levels are exactly the prefix levels of the paths. |
| Store.WithPlaceholders | utils.py:896-915 | A placeholder is added at every absent key. Existing objects are kept and no other key is created. |
| Store.PlaceholdersIdempotent | utils.py:896-915 | A second run of `ensure_placeholders` changes nothing. |
| Store.PathGetsPlaceholder | utils.py:896-915 | Every folder path itself gets its `.placeholder` key, unless its HEAD fails. |
| Store.DispositionShown | utils.py:917-943 | The disposition header starts with `inline` exactly for images. |
| Store.MetaLookup | utils.py:1178-1181 | The metadata value found was given under that name, lower-cased. `None` means no pair has that name. |
| Store.Bucket.constructor | utils.py:896-943 | The bucket starts with the given objects. |
| Store.Bucket.EnsurePlaceholders | utils.py:896-915 | The new objects are `WithPlaceholders` of the old ones over every level's placeholder key. |
| Store.Bucket.PutPlaceholders | utils.py:905-915 | The loop over levels adds exactly those placeholders. |
| Store.Bucket.UploadToS3 | utils.py:917-943 | It succeeds iff the put succeeds. On failure nothing changes. On success only `key` changes, and it holds the body, the content type, the disposition, the metadata and the tags. |
| Store.Bucket.FindKeysByDocId | utils.py:1159-1192 | Exactly the listed keys whose `fv_docid` tag or `documentid` metadata names the document are returned, in listing order and without repeats. Placeholders are skipped. |
| Store.Bucket.DeleteKeys | utils.py:1210-1218 | `deleted` holds exactly the keys whose delete succeeded. Exactly those are removed from the store. |
| Handlers.SuccessResponse | utils.py:1227-1228 | Status 200 with the given payload. |
| Handlers.ErrorResponse | utils.py:1230-1231 | The given status, with an error payload. |
| Handlers.ProjectName | utils.py:262-271 | The project name is a clean single segment. It is `Project_<pid>` when the lookup fails, and the sanitized `projectOrClientName` when present. |
| Handlers.PrefixesAgree | utils.py:949 | With the name sanitized once, the full sync and the webhooks use the same project prefix. |
| Handlers.PrefixesDisagree | utils.py:949 | As written, the full sync's prefix differs from the webhooks' for a project named `". " + t`. |
| Handlers.ParseDocId | utils.py:1078-1081 | No id exactly when `documentId` is falsy and `DocumentId` is absent. A scalar id goes through `int()`. |
| Handlers.DocTags | utils.py:1137 | The tags carry `fv_docid`, the document id. |
| Handlers.UploadedIsFound | utils.py:1030-1041 | A copy the upload stored is found by the delete handler's lookup. |
| Handlers.DeleteFound | utils.py:1206-1220 | No match gives 200 `not_found` with nothing deleted. Otherwise it gives 200 `deleted`, where `deletedKeys` are exactly the matches whose delete succeeded and only they are removed. |
| Handlers.HandleDocumentDelete | utils.py:1194-1225 | A missing id gives 400. An unconvertible id or a failed listing gives 500 with nothing changed. Otherwise `DeleteFound` over the webhook prefix. |
| Handlers.UploadReplyAsWritten | utils.py:1139-1146 | Status 200 iff the upload succeeded and public reads are on. |
| Handlers.StoredReportedFailed | utils.py:1139-1146 | A stored document with public reads off is reported as 500. |
| Handlers.UploadReply | utils.py:1139-1146 | 200 with the key iff the upload succeeded, otherwise 500. |
| Handlers.ReadDocInfo | utils.py:1092-1094 | The file name and folder name are sanitized, with their defaults. The folder id is absent when unset. An unusable record is `None`. |
| Handlers.ResolveWithRetry | utils.py:1096-1106 | The first `raised` strict attempts raise. The result is `None` iff six attempts raised, with the cache unchanged. Otherwise it is the path of the first attempt that resolved. |
| Handlers.RetryRound | utils.py:1097-1106 | One attempt: it raises or resolves, and the loop's knowledge is kept. |
| Handlers.RetriedNext | utils.py:1097-1106 | The outcome of the next attempt extends the loop's knowledge. |
| Handlers.StoreResolved | utils.py:1108-1149 | `StoreOutcome`: placeholders are created for every level of the path. The link is the one the link endpoint's replies gave for the id in the POSTs of `get_download_links_batch([id])` (`LinkOutcome`). The document is stored iff there is a link, the download succeeds and the store accepts it; only its key then changes, otherwise only the placeholders. No link gives 502, a failed download 500 "Internal server error", and otherwise the reply follows `upload_to_s3`'s result. |
| Handlers.UploadDocument | utils.py:1096-1146 | `UploadOutcome`: the first `raised` strict attempts raise. 503 iff six raised, with store and cache unchanged. Otherwise attempt `raised` resolved the folder to `path` from the cache before, and the store is as `StoreOutcome` says for that path. 200 iff stored with public reads on, naming the key; a stored document with public reads off gets 500. |
| Handlers.HandleSingleDocumentUpload | utils.py:1076-1149 | A missing id gives 400 with nothing changed. An unparsable or non-integer id, a missing document record or one that cannot be read gives 500 "Internal server error" with nothing changed (`UploadTarget`). Otherwise `UploadOutcome` holds under the webhook prefix. The statuses are 200, 400, 500, 502 and 503; 503 and a stored document need a usable target. |
| Handlers.FetchLink | utils.py:1116-1117 | `LinkOutcome`: the link is the one `get_download_links_batch([id])` returns for the id, or none. |
| Handlers.StoreLinked | utils.py:1118-1149 | `LinkedOutcome`: no link gives 502 with nothing changed; a failed download 500; otherwise the upload, which changes only the document's key and only when the store accepts it. |
| Handlers.StoreReplies | utils.py:1118-1146 | Under `StoreOutcome` the reply is 200, 500 or 502: 200 iff stored with public reads on, naming the key; 502 iff there is no link; a stored document with public reads off gets 500 "Failed to upload to S3". |
| Handlers.UploadStoresWhenAllSucceed | utils.py:1096-1146 | When some attempt among the first six resolves, the link is there, the download succeeds and the store accepts the upload, the reply is not 503 and the document is stored under the path the first resolving attempt gave. |
| Sync.DownloadFetched | utils.py:1000-1027 | A download succeeds exactly when a try within the limit fetched the body, after only transient failures. |
| Sync.TransientsExhaust | utils.py:1000-1027 | Five transient failures in a row give up. |
| Sync.DownloadWithRetry | utils.py:1000-1027 | The loop returns `DownloadFrom`. At most four transient failures are retried, and a success is the reply of the last try. |
| Sync.SyncOne | utils.py:985-1058 | It succeeds iff there is a link, the download succeeds and the put succeeds. A failure leaves the store as it was. A success stores the document under its key. |
| Sync.Trues | utils.py:1056-1058 | The count of successes is at most the number of outcomes. |
| Sync.Keys | utils.py:988 | Each document's key is `prefix + folder path + "/" + filename`. |
| Sync.WrittenSkip | utils.py:991-1027 | A failed document leaves the write record as it was. |
| Sync.WrittenStore | utils.py:1030-1056 | A stored document becomes its key's writer. |
| Sync.UploadStep | utils.py:984-1058 | One document is synced and its outcome counted. |
| Sync.UploadAll | utils.py:984-1058 | There is one outcome per document, each that of `SyncOne`. `uploaded` counts the successes and `uploaded + failed` is the number of documents. The store holds every successful document under its key, written by the last success there, and other keys are unchanged. |
| Sync.StoreAll | utils.py:964-1058 | Placeholders first, then the links are fetched and the upload loop runs over them. The links are exactly those the link endpoint's replies offered for the documents' ids (`LinksFetched`). The POST log has the `LogShaped` shape, which `Links.LogDetermined` shows the replies fix, so which documents are stored is fixed by the inputs. |
| Sync.MapProject | utils.py:952-961 | The folder map is the complete structure (every root and every folder reached from the roots mapped), and each document is mapped to `FolderPaths` over that map. The path set is the map's values, the documents' paths and `Documents`. |
| Sync.SyncUnder | utils.py:952-1071 | The whole sync under a given prefix: the complete structure, the documents mapped onto it, the links fetched, and the store written with the placeholders and every document that succeeds. |
| Sync.SyncDocuments | utils.py:947-1071 | The prefix is the project name sanitized a second time. `documentCount` is the number of documents and `uploadedCount + failedCount` equals it. The folder map is the complete structure, and each document's path is `FolderPaths` over it, so its key is prefix, true folder path and file name. The links are those the replies offered. The store holds the placeholders of every level and every successfully stored document under its key. |
| Sync.IdsOf | utils.py:981 | The ids of the mapped documents, in order. |
| Router.FirstWhere | lambda_function.py:61-63 | The first position from `i` on that satisfies the predicate, or the end. |
| Router.FirstHint | lambda_function.py:61-64 | The hint is `""` iff no candidate is a non-blank string. |
| Router.HintCandidates | lambda_function.py:52-60 | Seven candidates, in the documented order. |
| Router.ExtractDocumentId | lambda_function.py:66-86 | A truthy `documentId` is read; otherwise a truthy `DocumentId`; otherwise `payload.documentId` when `payload` is an object. The chosen value is read by `IdOf`: an object stands for its `native` member, and a null or a value `int()` rejects gives no id. With both fields falsy and no `payload` object, there is no id. |
| Router.DocumentIdShapes | lambda_function.py:68-73 | The three documented shapes (a bare `documentId`, a `DocumentId` object, a `payload.documentId` object) all give the id; a bare `0` gives none. |
| Router.AnyOccursMeans | lambda_function.py:88-94 | `any(t in ev)` holds iff some token occurs at some position. |
| Router.DeleteTokensReduce | lambda_function.py:88-90 | A hint looks like a delete iff it contains `delete`, `remove`, `trash` or `purge`. |
| Router.DocExists | lambda_function.py:96-112 | The document is treated as gone only on a 404. |
| Router.RouteEvent | lambda_function.py:128-231 | Covers the whole decision table, each row as an equation on the route. A background flag goes to the full sync. Pid 0 gives 400. A pid not on the list is skipped. Past those checks: a delete-like hint gives `Delete` with an id and the delete 400 without one; otherwise an update-like hint without an id gives the upsert 400; with an id, an update-like hint or a probe that does not say 404 gives the seed check then the upload, and a 404 gives `Delete`; no hint and no id give the project sync. |
| Router.PayloadIdExtracted | lambda_function.py:74-86 | An id given only as `payload.documentId` is one the router extracts. |
| Router.DeleteWithIdRoutes | lambda_function.py:193-196 | A delete-like event with an id that passes the front checks goes to the delete handler. |
| Router.PayloadIdReachesHandlerWithoutId | lambda_function.py:77 | An id given only as `payload.documentId` is routed to the delete handler, which reads no id there. |
| Uploader.ListChildren | fv_uploader_inbetween_original.py:566-577 | The pages in order, up to the first empty or short page. |
| Uploader.ListingFromPages | fv_uploader_inbetween_original.py:566-577 | Every item listed comes from a page read. |
| Uploader.ParentIds | fv_uploader_inbetween_original.py:586-587 | Exactly the truthy parent ids of the items. |
| Uploader.ParentIdsAppend | fv_uploader_inbetween_original.py:586-587 | The parent ids are collected in item order: those of `a + b` are those of `a` followed by those of `b`. |
| Uploader.ParentIdsOne | fv_uploader_inbetween_original.py:586-587 | One item contributes exactly its parent id, if it has one. |
| Uploader.MostCommon | fv_uploader_inbetween_original.py:588-591 | `None` iff the list is empty. Otherwise it returns a value of maximal count, the first of those to appear. |
| Uploader.GuessProjectRootId | fv_uploader_inbetween_original.py:579-591 | `None` iff no item has a parent. Otherwise it returns a parent id that some item names, one of maximal count among the parent ids, and the first of those to appear. |
| Uploader.FirstMatch | fv_uploader_inbetween_original.py:607-612 | `None` iff no child matches. Otherwise it is the folder of a matching child. |
| Uploader.FindChild | fv_uploader_inbetween_original.py:605-612 | The scan returns the first match. |
| Uploader.PathSegments | fv_uploader_inbetween_original.py:601 | Every segment is non-empty and slash-free. |
| Uploader.WalkAppend | fv_uploader_inbetween_original.py:604-617 | Walking `s + t` is walking `s` and then `t`. |
| Uploader.WalkIgnoresCase | fv_uploader_inbetween_original.py:605-610 | Segments equal once lower-cased lead to the same folder. |
| Uploader.SeparatorsNameRoot | fv_uploader_inbetween_original.py:598-602 | An empty sub-path, or one of only separators, names the root. |
| Uploader.ResolveUnderRoot | fv_uploader_inbetween_original.py:593-617 | The loop returns the folder the segments walk to. |
| Uploader.FirstResolvedMeans | fv_uploader_inbetween_original.py:778-807 | `None` iff no variant resolves. Otherwise it is the result of the first variant that resolves. |
| Uploader.TryDocTiles | fv_uploader_inbetween_original.py:800-806 | The tiles containing `doc` are tried in order. |
| Uploader.TryFallbacks | fv_uploader_inbetween_original.py:784-807 | The fallbacks are tried in order. |
| Uploader.ResolveSmartPath | fv_uploader_inbetween_original.py:771-807 | The first of the direct path and its fallbacks that resolves. |
| Uploader.Fallback | fv_uploader_inbetween_original.py:844-850 | Exit 6 iff unresolved, required and the sub-path is non-empty. Otherwise the resolved folder, or the root. |
| Uploader.RunUploader | fv_uploader_inbetween_original.py:809-854 | Exit 1 iff there is no project id, exit 2 iff the file is missing, exit 5 iff there is no root. Otherwise the resolve-or-fallback decision. |

## Left out

- HTTP, S3, Lambda and logging calls are not modelled. They are replaced by oracles, and store failures by predicates.
- The ACL call for public read is left out, because it is best-effort and its failure is ignored.
- `time.sleep` and the random jitter are left out. Only the integer-millisecond backoff formula is kept.
- Float `Retry-After` handling is left out.
- The credential refresh of `get_dynamic_headers` is an input that succeeds or fails.
- `parse_input` is left out: the model starts from an already decoded body, because base64 and JSON decoding are library code.
- `fetch_all_documents` is an input of the model: the normalised document list.
- The page-level retries of `_get` inside the listings are folded into "a page or a failure".
- Python `int()` is modelled on integers and on strings of ASCII digits with an optional sign and surrounding whitespace. Underscores, non-ASCII digits and floats (which `int()` truncates) are not modelled.
- Lower-casing is ASCII-only.
- `mimetypes.guess_type` is an input (`mime`).
- The iteration order of Python sets: the placeholder loop and the fallback folder loop are modelled over sets, in any order.
- A `headers` value that is not an object, and a truthy non-object `folderId` in a document record, are read as absent.
- The exception that turns a failed project-wide sync into a 500: `Router.RouteEvent` ends at `ProjectSync`, and exceptions inside `sync_documents` are not modelled.
- The command line's own `_request`, `register_document`, `upload_to_signed_url`, `finalize_document`, `upload_file`, `lookup_project` and `argparse` are left out, because they are I/O plumbing.
- The `PROJECT_ID` environment lookup is a parameter.
- The `lru_cache` on `_children_page` is left out, because the page oracle is deterministic.
- Termination rests on three assumptions: parent links decrease a rank (`Remote.Ranked`), the children listings form a finite tree (`Complete.KidsRanked`), and a children listing ends after finitely many pages (`Uploader.Finite`; `list_children` at fv_uploader_inbetween_original.py:569-577 keeps asking while pages come back full). The source has no hop bound. On a cycle the breadth-first walks and `resolve_path_via_parents` loop forever, and the recursive `resolve_folder_path` ends in a `RecursionError`.
- Complete.FetchCompleteFolderStructure, Complete.FetchStructure: state well-formed paths, mapped roots, the folders reached from them and the fallback's exact key set. For the main branch they do not state the exact path of every non-root folder. Nor do they state that every mapped key is a root or a reached folder: they promise which folders are mapped, not that nothing else is.
- Sync.SyncDocuments: does not model an exception escaping the folder discovery or the link batcher.
- Handlers.HandleSingleDocumentUpload: its 500 cases are a missing or unusable document record and a failed content download. Other exceptions (a raising store client, a raising link endpoint) are not modelled.
- Discovery.EnumerateAllFolders: does not state the order of the queue, only the sets it reaches.
- Router.ExtractDocumentId: a truthy `payload` that is not an object, with both id fields falsy, makes `lambda_handler` raise outside any handler. The model reads it as no id, and the event routes on to a project sync or a 400.
- Uploader.ChildFolder: a truthy `folderId.native` that `int()` rejects makes the walk raise. So does a truthy `folderId` that is not an object, whose `.get` raises an AttributeError (fv_uploader_inbetween_original.py:607). The model skips that child in both cases.
- Uploader.ParentOf: a truthy parent `native` that `int()` rejects makes the root guess raise. So does a truthy `parentId` that is not an object, whose `.get` raises an AttributeError (fv_uploader_inbetween_original.py:586). The model skips that item in both cases.
- Uploader.NameOf: a truthy `name` that is not a string makes the walk raise. The model reads it as `""`.
- Handlers.HandleSingleDocumentUpload: a `documentId` object whose `native` is not an integer (a string such as `"123"`) is used as is by the source, which goes on with it. The model answers 500 instead.
- Handlers.ReadDocInfo: a truthy `folderId.native` that `int()` rejects is read as absent, so the document resolves to its fallback folder. The source fetches that folder, fails on every attempt and answers 503.
- Discovery.ListItem: folder listing entries come in normalised, with an integer id (0 for a falsy or absent `folderId.native`) and an optional name. So the model does not capture four error paths of the source:
  - A truthy `folderId.native` that `int()` rejects in the root listing ends the root loop, keeping the roots read before it on that page (utils.py:282-291).
  - The same value in `enumerate_all_folders`' children loop raises out of the walk (utils.py:411-414).
  - It also raises out of `fetch_complete_folder_structure` (utils.py:584-587).
  - A truthy child name that is not a string raises in `sanitize` there (utils.py:589-598).
- Links.LinkOf: a truthy batch entry that is not an object makes the chunk loop raise. The model keeps such entries out of batch replies (`Links.BatchesShaped`) rather than modelling the exception. Single-id replies are not constrained.
- Router.Context.listed: the seed check's `list_objects_v2` call (lambda_function.py:169) has no `try`, so a failing listing makes `lambda_handler` raise. The model takes the listing's answer as a total input and does not model that exception.
- Json.Str: gives `"<array>"` and `"<object>"` for containers, which is not Python's `str()` of a list or a dict. This only matters when a delete target's `native` is itself a list or an object.

## Findings

| source | as written | input that shows it | evidently intended | confidence | as-written member | corrected member |
|---|---|---|---|---|---|---|
| utils.py:949 | The full sync sanitizes the already sanitized project name again for its prefix, while the webhooks (utils.py:1085) use the name once. | A project named `". " + t` for a tidy `t`: the sync writes under `<prefix>t/`, the webhooks under `<prefix> t/`. | Both use the same project prefix. | not executed | Handlers.PrefixesDisagree | Handlers.PrefixesAgree |
| utils.py:1139-1146 | The success reply sits inside `if ok and S3_PUBLIC_READ`, so a stored document with public reads off gets 500 "Failed to upload to S3". | `ok == True`, `S3_PUBLIC_READ == False`. | 200 with the key whenever the upload succeeded; the ACL is best-effort. | not executed | Handlers.UploadReplyAsWritten | Handlers.UploadReply |

The operations follow the code as written: `Handlers.StoreResolved` and the handlers above it reply through `Handlers.UploadReplyAsWritten` with the `S3_PUBLIC_READ` setting as an input, and `Sync.SyncDocuments` and `Router.SeedPrefix` use `Handlers.SyncPrefixAsWritten`. The corrected definitions are kept beside them, with the intended property proved.
