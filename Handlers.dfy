/** The two webhook handlers of the processor: one document uploaded to its resolved folder, and the
    stored copies of a deleted document removed; with the responses they build and the project
    prefix they write under. */
module Handlers {
  import opened Wrappers
  import opened Text
  import opened Json
  import opened Names
  import opened Remote
  import opened Resolver
  import opened Links
  import opened Store

  /** Why a handler gives up. */
  datatype Failure =
    | MissingDocumentId
    | RateLimitedResolving
    | NoDownloadLink(documentId: int)
    | UploadFailed
    | InternalError

  /** The `error` text of each failure. */
  function Message(f: Failure): string {
    match f
    case MissingDocumentId => "Missing document ID"
    case RateLimitedResolving => "Rate-limited resolving folder path; please retry"
    case NoDownloadLink(id) => "No download link for document " + IntToString(id)
    case UploadFailed => "Failed to upload to S3"
    case InternalError => "Internal server error"
  }

  /** The JSON body of a response. */
  datatype Payload =
    | Error(failure: Failure)
    | StoredAt(s3Key: string)
    | NotFound(projectId: int, documentId: Json)
    | Deleted(projectId: int, documentId: Json, deletedKeys: seq<string>)

  datatype Response = Response(statusCode: int, payload: Payload)

  /** `success_response(data)`. */
  function SuccessResponse(p: Payload): (r: Response)
    ensures r.statusCode == 200 && r.payload == p
  {
    Response(200, p)
  }

  /** `error_response(code, message)`. */
  function ErrorResponse(code: int, f: Failure): (r: Response)
    ensures r.statusCode == code && r.payload == Error(f)
  {
    Response(code, Error(f))
  }

  /** The name used when the project cannot be looked up. */
  function DefaultProjectName(pid: int): string {
    "Project_" + IntToString(pid)
  }

  lemma IntToStringChars(i: int)
    ensures IntToString(i) != []
    ensures forall j :: 0 <= j < |IntToString(i)| ==> IsDigit(IntToString(i)[j]) || IntToString(i)[j] == '-'
    ensures IsDigit(IntToString(i)[|IntToString(i)| - 1])
  {
    if i < 0 {
      var d := DigitString(-i);
      assert IntToString(i) == "-" + d;
      assert forall j :: 1 <= j < |IntToString(i)| ==> IntToString(i)[j] == d[j - 1];
    }
  }

  lemma DefaultProjectNameClean(pid: int)
    ensures CleanPath(DefaultProjectName(pid))
  {
    IntToStringChars(pid);
    var s := IntToString(pid);
    var n := DefaultProjectName(pid);
    assert n == "Project_" + s;
    forall j | 0 <= j < |n|
      ensures n[j] != '\\'
    {
      if j >= 8 {
        assert n[j] == s[j - 8];
      }
    }
    assert n[|n| - 1] == s[|s| - 1];
  }

  /** `get_project_name`: the sanitized `projectOrClientName` of the project record (`reply`, `None`
      when the request fails), `Project_<id>` when the field is missing, and `Project_<id>` unsanitized
      when the request fails or the name is a non-string value that `sanitize` cannot take. */
  function ProjectName(reply: Option<Object>, pid: int): (name: string)
    ensures CleanPath(name) && '/' !in name
    ensures reply.None? ==> name == DefaultProjectName(pid)
    ensures reply.Some? && "projectOrClientName" in reply.value && reply.value["projectOrClientName"].JStr?
            ==> name == Sanitize(reply.value["projectOrClientName"].s)
  {
    DefaultProjectNameClean(pid);
    match reply
    case None => DefaultProjectName(pid)
    case Some(o) =>
      var v := if "projectOrClientName" in o then o["projectOrClientName"] else JStr(DefaultProjectName(pid));
      if v.JStr? then
        SanitizedIsPath(v.s);
        Sanitize(v.s)
      else if !Truthy(v) then
        SanitizedIsPath("");
        Sanitize("")
      else DefaultProjectName(pid)
  }

  /** The handlers' project prefix, `_to_s3_key(S3_PREFIX, project_name) + "/"`. */
  function WebhookPrefix(s3Prefix: string, name: string): string {
    ToS3Key([s3Prefix, name]) + "/"
  }

  /** The full sync's project prefix as `sync_documents` writes it: the already sanitized project
      name is sanitized a second time. */
  function SyncPrefixAsWritten(s3Prefix: string, name: string): string {
    s3Prefix + Sanitize(name) + "/"
  }

  /** The full sync's project prefix with the project name used as looked up. */
  function SyncPrefix(s3Prefix: string, name: string): string {
    s3Prefix + name + "/"
  }

  /** With the configured prefix ending in one slash, the full sync (with the name used once) and
      the handlers write under the same project prefix, so a webhook finds what a sync stored. */
  lemma PrefixesAgree(base: string, reply: Option<Object>, pid: int)
    requires CleanPath(base)
    ensures SyncPrefix(base + "/", ProjectName(reply, pid)) == WebhookPrefix(base + "/", ProjectName(reply, pid))
  {
    var name := ProjectName(reply, pid);
    KeyPartOfSlashed(base);
    KeyPartOfClean(name);
    KeyPartsTwo(base + "/", name);
    assert Join([base, name], "/") == base + "/" + Join([name], "/");
    JoinClean(base, name);
    StripEnds(base + "/" + name, Slash);
  }

  /** A project record whose `projectOrClientName` is `s`. */
  function NamedProject(s: string): Option<Object> {
    Some(map["projectOrClientName" := JStr(s)])
  }

  /** Sanitizing twice does not agree with the handlers: a project named `". " + t`, for any tidy
      `t`, is looked up as `" " + t`; the handlers write under `<base>/ t/` and the sync as written
      under `<base>/t/`. */
  lemma PrefixesDisagree(base: string, t: string, pid: int)
    requires CleanPath(base) && Tidy(t)
    ensures SyncPrefixAsWritten(base + "/", ProjectName(NamedProject(". " + t), pid))
            != WebhookPrefix(base + "/", ProjectName(NamedProject(". " + t), pid))
  {
    var name := ProjectName(NamedProject(". " + t), pid);
    assert name == Sanitize(". " + t);
    SanitizeNotIdempotent(t);
    SanitizeDotSpace(t);
    PrefixesAgree(base, NamedProject(". " + t), pid);
    assert |SyncPrefixAsWritten(base + "/", name)| == |base| + |t| + 2;
    assert |SyncPrefix(base + "/", name)| == |base| + |t| + 3;
  }

  /** The document id a webhook body names. */
  datatype DocIdParse =
    | NoDocId          // neither field set: `raw is None`
    | BadDocId         // a value `int()` rejects: the handler's own exception handler answers
    | DocId(value: Json)

  /** `raw = documentId or DocumentId`, then the `native` field of an object or `int(raw)`. */
  function ParseDocId(body: Object): (r: DocIdParse)
    ensures r.NoDocId? <==> !Truthy(Get(body, "documentId")) && Get(body, "DocumentId") == JNull
    ensures Truthy(Get(body, "documentId")) && IntOf(Get(body, "documentId")).Some? && !Get(body, "documentId").JObj?
            ==> r == DocId(JInt(IntOf(Get(body, "documentId")).value))
  {
    var raw := Or(Get(body, "documentId"), Get(body, "DocumentId"));
    if raw == JNull then NoDocId
    else if raw.JObj? then DocId(Get(raw.fields, "native"))
    else
      match IntOf(raw)
      case None => BadDocId
      case Some(n) => DocId(JInt(n))
  }

  /** The metadata both the full sync and the upload handler give an uploaded document. */
  function DocMetadata(docId: string, pid: int, folderId: string, folderPath: string): seq<(string, string)> {
    [("documentId", docId), ("projectId", IntToString(pid)), ("folderId", folderId), ("folderPath", folderPath)]
  }

  /** The tags both the full sync and the upload handler give an uploaded document. */
  function DocTags(docId: string, pid: int): (t: map<string, string>)
    ensures "fv_docid" in t && t["fv_docid"] == docId
  {
    map["origin" := "filevine", "fv_docid" := docId, "projectId" := IntToString(pid)]
  }

  /** What the delete handler looks for stored under `key` is there: an uploaded document's copy is
      found again by its id, unless its key is a placeholder's or reading its tags fails and its
      metadata cannot be read either. */
  lemma UploadedIsFound(objects: map<string, Obj>, key: string, o: Obj, docId: string, pid: int,
                        tagFails: string -> bool, headFails: string -> bool)
    requires key in objects && objects[key] == o && o.tags == DocTags(docId, pid)
    requires !EndsWith(key, "/" + PlaceholderName) && !tagFails(key)
    ensures Matches(objects, key, docId, tagFails, headFails)
  {
  }

  /** The listed keys that hold a copy of document `target`. */
  ghost function Found(objects: map<string, Obj>, listing: seq<string>, target: string,
                       tagFails: string -> bool, headFails: string -> bool): set<string>
  {
    set k | k in listing && Matches(objects, k, target, tagFails, headFails)
  }

  /** How the delete handler answers once it has the listing: `not_found` when no listed key holds
      the document, otherwise `deleted` with the keys it removed, which are the found keys whose
      deletion the store accepts, and the store without them. */
  ghost predicate DeleteReplied(objects0: map<string, Obj>, objects: map<string, Obj>, found: set<string>,
                                pid: int, id: Json, deleteFails: string -> bool, resp: Response)
  {
    if found == {} then
      resp == SuccessResponse(NotFound(pid, id)) && objects == objects0
    else
      resp.statusCode == 200 && resp.payload.Deleted? &&
      resp.payload.projectId == pid && resp.payload.documentId == id &&
      (forall k :: k in resp.payload.deletedKeys <==> k in found && !deleteFails(k)) &&
      objects == map k | k in objects0 && k !in resp.payload.deletedKeys :: objects0[k]
  }

  /** The second half of `handle_document_delete`: find the copies in the listing and delete them. */
  method DeleteFound(b: Bucket, listing: seq<string>, pid: int, id: Json, tagFails: string -> bool,
                     headFails: string -> bool, deleteFails: string -> bool)
    returns (resp: Response)
    modifies b
    ensures DeleteReplied(old(b.objects), b.objects, Found(old(b.objects), listing, Str(id), tagFails, headFails),
                          pid, id, deleteFails, resp)
  {
    ghost var found := Found(b.objects, listing, Str(id), tagFails, headFails);
    var keys, at := b.FindKeysByDocId(listing, Str(id), tagFails, headFails);
    if keys == [] {
      assert found == {};
      return SuccessResponse(NotFound(pid, id));
    }
    assert keys[0] in found;
    var deleted := b.DeleteKeys(keys, deleteFails);
    return SuccessResponse(Deleted(pid, id, deleted));
  }

  /** `handle_document_delete`. `listings(prefix)` is the store's listing of a prefix, all pages in
      order (`None` when listing fails); `tagFails`, `headFails` and `deleteFails` say which tag
      reads, HEADs and deletions the store rejects. */
  method HandleDocumentDelete(b: Bucket, body: Object, projectReply: Option<Object>, s3Prefix: string,
                              listings: string -> Option<seq<string>>, tagFails: string -> bool,
                              headFails: string -> bool, deleteFails: string -> bool)
    returns (resp: Response)
    modifies b
    ensures ParseDocId(body).NoDocId? ==> resp == ErrorResponse(400, MissingDocumentId) && b.objects == old(b.objects)
    ensures ParseDocId(body).BadDocId? ==> resp == ErrorResponse(500, InternalError) && b.objects == old(b.objects)
    ensures ParseDocId(body).DocId? ==>
      var pid := ExtractProjectId(body);
      var listing := listings(WebhookPrefix(s3Prefix, ProjectName(projectReply, pid)));
      if listing.None? then resp == ErrorResponse(500, InternalError) && b.objects == old(b.objects)
      else DeleteReplied(old(b.objects), b.objects,
                         Found(old(b.objects), listing.value, Str(ParseDocId(body).value), tagFails, headFails),
                         pid, ParseDocId(body).value, deleteFails, resp)
  {
    var parsed := ParseDocId(body);
    if parsed.NoDocId? {
      return ErrorResponse(400, MissingDocumentId);
    }
    if parsed.BadDocId? {
      return ErrorResponse(500, InternalError);
    }
    var pid := ExtractProjectId(body);
    var name := ProjectName(projectReply, pid);
    var listing := listings(WebhookPrefix(s3Prefix, name));
    if listing.None? {
      return ErrorResponse(500, InternalError);
    }
    resp := DeleteFound(b, listing.value, pid, parsed.value, tagFails, headFails, deleteFails);
  }

  /** `if ok and S3_PUBLIC_READ: return success` as written: the success reply sits inside the
      public-read branch, so with public reads off (the default) a stored document is reported as
      a failed upload. */
  function UploadReplyAsWritten(ok: bool, publicRead: bool, key: string): (resp: Response)
    ensures resp.statusCode == 200 <==> ok && publicRead
  {
    if ok && publicRead then SuccessResponse(StoredAt(key)) else ErrorResponse(500, UploadFailed)
  }

  /** A successful upload reported as a failure: public reads off and the store accepted the object. */
  lemma StoredReportedFailed(key: string)
    ensures UploadReplyAsWritten(true, false, key) == ErrorResponse(500, UploadFailed)
  {
  }

  /** The reply once the upload is done, whatever the (separate, best-effort) public-read setting. */
  function UploadReply(ok: bool, key: string): (resp: Response)
    ensures ok <==> resp == SuccessResponse(StoredAt(key))
    ensures !ok <==> resp == ErrorResponse(500, UploadFailed)
    ensures ok ==> UploadReplyAsWritten(ok, true, key) == resp
  {
    if ok then SuccessResponse(StoredAt(key)) else ErrorResponse(500, UploadFailed)
  }

  /** What the upload handler reads from a document record. */
  datatype DocInfo = DocInfo(filename: string, folderId: Option<int>, folderName: string)

  /** The document record's sanitized filename (`unnamed` when unset), its `folderId.native` and its
      sanitized `folderName` (`unfiled` when unset); `None` where the record holds a value of a type
      the handler cannot use (a non-string name, a non-object `folderId`), which raises. The
      handler passes `document_<id>` and `Documents` as the two defaults. */
  function ReadDocInfo(doc: Object, unnamed: string, unfiled: string): (r: Option<DocInfo>)
    ensures r.Some? ==> WellFormedPath(r.value.filename) && WellFormedPath(r.value.folderName)
    ensures r.Some? && !Truthy(Get(doc, "filename")) ==> r.value.filename == Sanitize(unnamed)
    ensures r.Some? && !Truthy(Get(doc, "folderName")) ==> r.value.folderName == Sanitize(unfiled)
    ensures r.Some? && !Truthy(Get(doc, "folderId")) ==> r.value.folderId.None?
    ensures r.None? <==> (Truthy(Get(doc, "filename")) && !Get(doc, "filename").JStr?) ||
                         (Truthy(Get(doc, "folderName")) && !Get(doc, "folderName").JStr?) ||
                         (Truthy(Get(doc, "folderId")) && !Get(doc, "folderId").JObj?)
  {
    var name := if Truthy(Get(doc, "filename")) then Get(doc, "filename") else JStr(unnamed);
    var folder := Get(doc, "folderId");
    var folderName := if Truthy(Get(doc, "folderName")) then Get(doc, "folderName") else JStr(unfiled);
    if !name.JStr? || !folderName.JStr? || (Truthy(folder) && !folder.JObj?) then None
    else
      var native := if Truthy(folder) then Get(folder.fields, "native") else JNull;
      SanitizedIsPath(name.s);
      SanitizedIsPath(folderName.s);
      Some(DocInfo(Sanitize(name.s), if native == JNull then None else IntOf(native), Sanitize(folderName.s)))
  }

  /** `folder_id or ""` as the text stored in the object metadata. */
  function FolderIdText(folderId: Option<int>): string {
    if IdOf(folderId) == 0 then "" else IntToString(IdOf(folderId))
  }

  /** The number of strict resolutions the handler tries before answering 503. */
  const ResolveAttempts := 6

  /** A strict resolution of `folderId` against `api` raises. */
  ghost predicate RaisesOn(api: FolderApi, cache: map<int, string>, folderId: Option<int>, fallback: string,
                           rank: int -> nat)
    requires Ranked(api, rank)
  {
    Resolve(api, cache, folderId, fallback, true, rank).result.Raised?
  }

  /** The first `k` strict attempts all raise. */
  ghost predicate FirstRaise(apis: nat -> FolderApi, cache: map<int, string>, folderId: Option<int>, fallback: string,
                             rank: int -> nat, k: nat)
    requires forall n :: Ranked(apis(n), rank)
  {
    forall n: nat :: n < k ==> RaisesOn(apis(n), cache, folderId, fallback, rank)
  }

  /** A strict resolution of `folderId` against `api` gives `path` and leaves `cache'` behind. */
  ghost predicate ResolvesTo(api: FolderApi, cache: map<int, string>, folderId: Option<int>, fallback: string,
                             rank: int -> nat, path: string, cache': map<int, string>)
    requires Ranked(api, rank)
  {
    Resolve(api, cache, folderId, fallback, true, rank) == Step(Resolved(path), cache')
  }

  /** The strict-resolution loop of `handle_single_document_upload`. `apis(n)` is the folder
      endpoint as the `n`-th attempt (from 0) sees it, a rate-limited fetch being a folder missing
      from it; `raised` counts the attempts that raised. */
  method ResolveWithRetry(r: FolderResolver, apis: nat -> FolderApi, folderId: Option<int>, fallback: string,
                          ghost rank: int -> nat)
    returns (path: Option<string>, raised: nat)
    requires forall n :: Ranked(apis(n), rank)
    modifies r
    // the attempts before the last all raised, each leaving the cache as it was
    ensures FirstRaise(apis, old(r.cache), folderId, fallback, rank, raised)
    // six raises and the handler gives up, with nothing cached
    ensures path.None? <==> raised == ResolveAttempts
    ensures path.None? ==> r.cache == old(r.cache)
    // otherwise the next attempt resolved the path
    ensures path.Some? ==> raised < ResolveAttempts &&
                           ResolvesTo(apis(raised), old(r.cache), folderId, fallback, rank, path.value, r.cache)
  {
    raised := 0;
    var got := Raised;
    while got.Raised? && raised < ResolveAttempts
      invariant Retried(apis, old(r.cache), folderId, fallback, rank, raised, got, r.cache)
      decreases ResolveAttempts - raised, got.Raised?
    {
      got, raised := RetryRound(r, apis, folderId, fallback, rank, raised, got, old(r.cache));
    }
    path := if got.Resolved? then Some(got.path) else None;
  }

  /** What the retry loop knows after `raised` raises, `got` being the last outcome. */
  ghost predicate Retried(apis: nat -> FolderApi, cache0: map<int, string>, folderId: Option<int>, fallback: string,
                          rank: int -> nat, raised: nat, got: Resolution, cache: map<int, string>)
    requires forall n :: Ranked(apis(n), rank)
  {
    raised <= ResolveAttempts &&
    FirstRaise(apis, cache0, folderId, fallback, rank, raised) &&
    (got.Raised? ==> cache == cache0) &&
    (got.Resolved? ==> raised < ResolveAttempts && ResolvesTo(apis(raised), cache0, folderId, fallback, rank, got.path, cache))
  }

  /** One pass of the retry loop: attempt number `raised` either raises or resolves. */
  method RetryRound(r: FolderResolver, apis: nat -> FolderApi, folderId: Option<int>, fallback: string,
                    ghost rank: int -> nat, raised: nat, got: Resolution, ghost cache0: map<int, string>)
    returns (got': Resolution, raised': nat)
    requires forall n :: Ranked(apis(n), rank)
    requires got.Raised? && raised < ResolveAttempts
    requires Retried(apis, cache0, folderId, fallback, rank, raised, got, r.cache)
    modifies r
    ensures Retried(apis, cache0, folderId, fallback, rank, raised', got', r.cache)
    ensures raised <= raised' && (got'.Raised? ==> raised < raised')
  {
    ghost var s := Resolve(apis(raised), cache0, folderId, fallback, true, rank);
    RetriedNext(apis, cache0, folderId, fallback, rank, raised, s);
    got' := r.ResolveFolderPath(apis(raised), folderId, fallback, true, rank);
    raised' := if got'.Raised? then raised + 1 else raised;
  }

  /** The outcome `s` of attempt number `raised`, after `raised` raises, keeps the loop's knowledge. */
  lemma RetriedNext(apis: nat -> FolderApi, cache0: map<int, string>, folderId: Option<int>, fallback: string,
                    rank: int -> nat, raised: nat, s: Step)
    requires forall n :: Ranked(apis(n), rank)
    requires raised < ResolveAttempts && FirstRaise(apis, cache0, folderId, fallback, rank, raised)
    requires s == Resolve(apis(raised), cache0, folderId, fallback, true, rank)
    ensures s.result.Raised? ==> Retried(apis, cache0, folderId, fallback, rank, raised + 1, s.result, s.cache)
    ensures s.result.Resolved? ==> Retried(apis, cache0, folderId, fallback, rank, raised, s.result, s.cache)
  {
    if s.result.Raised? {
      forall n: nat | n < raised + 1
        ensures RaisesOn(apis(n), cache0, folderId, fallback, rank)
      {
        if n == raised {
          assert RaisesOn(apis(raised), cache0, folderId, fallback, rank);
        }
      }
    }
  }

  /** Everything the upload handler learns from outside: the project record, the document record,
      the folder endpoint per resolution attempt, which HEADs fail, the link endpoint's replies,
      the download of each link, the MIME registry, whether the store rejects the upload and the
      `S3_PUBLIC_READ` setting. */
  datatype World = World(
    projectReply: Option<Object>,
    docMeta: Option<Object>,
    folders: nat -> FolderApi,
    headFails: string -> bool,
    links: Replies,
    download: Json -> Option<Bytes>,
    mime: string -> Option<string>,
    putFails: bool,
    publicRead: bool)

  /** The object stored for document `id` of project `pid` at `key` in folder `path`. */
  ghost predicate StoredDoc(objects: map<string, Obj>, key: string, id: int, pid: int, info: DocInfo, path: string,
                            content: Bytes)
  {
    key in objects &&
    objects[key].body == content &&
    objects[key].tags == DocTags(IntToString(id), pid) &&
    objects[key].metadata == DocMetadata(IntToString(id), pid, FolderIdText(info.folderId), path)
  }

  /** Document `id` is stored at its key under `prefix` and `path`, holding the bytes downloaded
      from `link`. */
  ghost predicate Stored(objects: map<string, Obj>, prefix: string, id: int, pid: int, info: DocInfo, path: string,
                         link: Json, w: World)
  {
    Truthy(link) && w.download(link).Some? &&
    StoredDoc(objects, ToS3Key([prefix, path, info.filename]), id, pid, info, path, w.download(link).value)
  }

  /** The link the handler reads for `id`: the one the link endpoint's replies to the POSTs in
      `sent` gave for it, or none. */
  ghost predicate LinkOutcome(replies: Replies, id: int, linkMap: map<int, Json>, sent: seq<Post>, link: Json) {
    LinksFetched(replies, [id], linkMap, sent) && link == (if id in linkMap then linkMap[id] else JNull)
  }

  /** What the handler leaves once it holds `link`, `placed` being the store with the path's
      placeholders: the document is stored exactly when there is a link, it downloads and the
      store accepts the upload, and then only its key changes; the reply is 502 without a link,
      500 when the download fails, and otherwise the reply `upload_to_s3`'s result gets. */
  ghost predicate LinkedOutcome(placed: map<string, Obj>, objects: map<string, Obj>, prefix: string, path: string,
                                id: int, pid: int, info: DocInfo, w: World, resp: Response, link: Json, stored: bool)
  {
    var key := ToS3Key([prefix, path, info.filename]);
    && (stored <==> Truthy(link) && w.download(link).Some? && !w.putFails)
    && (stored ==> Stored(objects, prefix, id, pid, info, path, link, w) && objects == placed[key := objects[key]])
    && (!stored ==> objects == placed)
    && (!Truthy(link) ==> resp == ErrorResponse(502, NoDownloadLink(id)))
    && (Truthy(link) && w.download(link).None? ==> resp == ErrorResponse(500, InternalError))
    && (Truthy(link) && w.download(link).Some? ==> resp == UploadReplyAsWritten(stored, w.publicRead, key))
  }

  /** What storing document `id` at `path` leaves behind, `objects0` being the store before: the
      link the endpoint gave (`LinkOutcome`), then the store with the path's placeholders and the
      download and upload as `LinkedOutcome` says. */
  ghost predicate StoreOutcome(objects0: map<string, Obj>, objects: map<string, Obj>, prefix: string, path: string,
                               id: int, pid: int, info: DocInfo, w: World, resp: Response,
                               linkMap: map<int, Json>, sent: seq<Post>, link: Json, stored: bool)
  {
    && LinkOutcome(w.links, id, linkMap, sent, link)
    && LinkedOutcome(WithPlaceholders(objects0, PlaceholderKeys(prefix, Levels({path}), w.headFails)), objects,
                     prefix, path, id, pid, info, w, resp, link, stored)
  }

  /** `links.get(document_id)` after `get_download_links_batch([document_id])`. */
  method FetchLink(replies: Replies, id: int) returns (link: Json, ghost linkMap: map<int, Json>, ghost sent: seq<Post>)
    requires BatchesShaped(replies)
    ensures LinkOutcome(replies, id, linkMap, sent, link)
  {
    var links, posts := GetDownloadLinksBatch(replies, [id]);
    assert LinksFetched(replies, [id], links, posts);
    linkMap, sent := links, posts;
    link := JNull;
    if id in links {
      link := links[id];
    }
  }

  /** The handler once it holds the link: 502 without one, else the download and the upload. */
  method StoreLinked(b: Bucket, prefix: string, path: string, id: int, pid: int, info: DocInfo, w: World, link: Json)
    returns (resp: Response, ghost stored: bool)
    modifies b
    ensures LinkedOutcome(old(b.objects), b.objects, prefix, path, id, pid, info, w, resp, link, stored)
  {
    stored := false;
    if !Truthy(link) {
      return ErrorResponse(502, NoDownloadLink(id)), stored;
    }
    var content := w.download(link);
    if content.None? {
      return ErrorResponse(500, InternalError), stored;
    }
    var key := ToS3Key([prefix, path, info.filename]);
    var ok := b.UploadToS3(key, content.value, info.filename, w.mime(info.filename),
                           DocMetadata(IntToString(id), pid, FolderIdText(info.folderId), path),
                           DocTags(IntToString(id), pid), w.putFails);
    stored := ok;
    resp := UploadReplyAsWritten(ok, w.publicRead, key);
  }

  /** The handler once the folder path is known: placeholders for every level of the path, the
      document's download link, the download and the upload. `stored` tells whether the upload
      went through; the reply says so only with public reads on. */
  method StoreResolved(b: Bucket, prefix: string, path: string, id: int, pid: int, info: DocInfo, w: World)
    returns (resp: Response, ghost linkMap: map<int, Json>, ghost sent: seq<Post>, ghost link: Json, ghost stored: bool)
    requires BatchesShaped(w.links)
    modifies b
    ensures StoreOutcome(old(b.objects), b.objects, prefix, path, id, pid, info, w, resp, linkMap, sent, link, stored)
  {
    b.EnsurePlaceholders(prefix, {path}, w.headFails);
    var url;
    url, linkMap, sent := FetchLink(w.links, id);
    link := url;
    resp, stored := StoreLinked(b, prefix, path, id, pid, info, w, url);
  }

  /** The replies `StoreOutcome` allows: 200 exactly when the document was stored and public reads
      are on, naming its key; a stored document with public reads off is reported as failed; 502
      exactly when there is no link. */
  lemma StoreReplies(objects0: map<string, Obj>, objects: map<string, Obj>, prefix: string, path: string,
                     id: int, pid: int, info: DocInfo, w: World, resp: Response,
                     linkMap: map<int, Json>, sent: seq<Post>, link: Json, stored: bool)
    requires StoreOutcome(objects0, objects, prefix, path, id, pid, info, w, resp, linkMap, sent, link, stored)
    ensures resp.statusCode == 200 || resp.statusCode == 500 || resp.statusCode == 502
    ensures resp.statusCode == 200 <==> stored && w.publicRead
    ensures resp.statusCode == 200 ==> resp.payload == StoredAt(ToS3Key([prefix, path, info.filename]))
    ensures resp.statusCode != 200 ==> resp.payload.Error?
    ensures stored && !w.publicRead ==> resp == ErrorResponse(500, UploadFailed)
    ensures resp.statusCode == 502 <==> !Truthy(link)
  {
  }

  /** A 200 reply naming the key the document was stored under: the project prefix, the resolved
      folder path and the sanitized filename; the object there holds the bytes downloaded from the
      document's link. */
  ghost predicate StoredReply(objects: map<string, Obj>, resp: Response, prefix: string, id: int, pid: int,
                              info: DocInfo, path: string, link: Json, w: World)
  {
    resp.payload == StoredAt(ToS3Key([prefix, path, info.filename])) &&
    Stored(objects, prefix, id, pid, info, path, link, w)
  }

  /** What the handler leaves once the document record is read, `objects0` and `cache0` being the
      store and the path cache before: the first `raised` strict resolutions raised; six of them
      answer 503 with nothing changed; otherwise attempt number `raised` resolved the folder to
      `path` and the document was stored there as `StoreOutcome` says. */
  ghost predicate UploadOutcome(objects0: map<string, Obj>, cache0: map<int, string>,
                                objects: map<string, Obj>, cache: map<int, string>, prefix: string,
                                id: int, pid: int, info: DocInfo, w: World, rank: int -> nat, resp: Response,
                                raised: nat, path: string, linkMap: map<int, Json>, sent: seq<Post>,
                                link: Json, stored: bool)
    requires forall n :: Ranked(w.folders(n), rank)
  {
    && FirstRaise(w.folders, cache0, info.folderId, info.folderName, rank, raised)
    && (resp.statusCode == 503 <==> raised == ResolveAttempts)
    && (resp.statusCode == 503 ==>
          resp == ErrorResponse(503, RateLimitedResolving) && objects == objects0 && cache == cache0 && !stored)
    && (resp.statusCode != 503 ==>
          raised < ResolveAttempts &&
          ResolvesTo(w.folders(raised), cache0, info.folderId, info.folderName, rank, path, cache) &&
          StoreOutcome(objects0, objects, prefix, path, id, pid, info, w, resp, linkMap, sent, link, stored))
  }

  /** An attempt among the first six that resolves, a link, a download and an accepted upload
      store the document, under the folder path the first resolving attempt gives. */
  lemma UploadStoresWhenAllSucceed(objects0: map<string, Obj>, cache0: map<int, string>,
                                   objects: map<string, Obj>, cache: map<int, string>, prefix: string,
                                   id: int, pid: int, info: DocInfo, w: World, rank: int -> nat, resp: Response,
                                   raised: nat, path: string, linkMap: map<int, Json>, sent: seq<Post>,
                                   link: Json, stored: bool, n: nat)
    requires forall m :: Ranked(w.folders(m), rank)
    requires UploadOutcome(objects0, cache0, objects, cache, prefix, id, pid, info, w, rank, resp,
                           raised, path, linkMap, sent, link, stored)
    requires n < ResolveAttempts && !RaisesOn(w.folders(n), cache0, info.folderId, info.folderName, rank)
    requires Truthy(link) && w.download(link).Some? && !w.putFails
    ensures resp.statusCode != 503 && stored && Stored(objects, prefix, id, pid, info, path, link, w)
    ensures ResolvesTo(w.folders(raised), cache0, info.folderId, info.folderName, rank, path, cache)
  {
  }

  /** The handler once the document record is read: resolve its folder strictly, with retries, and
      store it there. */
  method UploadDocument(b: Bucket, r: FolderResolver, prefix: string, id: int, pid: int, info: DocInfo, w: World,
                        ghost rank: int -> nat)
    returns (resp: Response, ghost raised: nat, ghost path: string, ghost linkMap: map<int, Json>,
             ghost sent: seq<Post>, ghost link: Json, ghost stored: bool)
    requires forall n :: Ranked(w.folders(n), rank)
    requires BatchesShaped(w.links)
    modifies b, r
    ensures UploadOutcome(old(b.objects), old(r.cache), b.objects, r.cache, prefix, id, pid, info, w, rank, resp,
                          raised, path, linkMap, sent, link, stored)
    ensures resp.statusCode == 200 || resp.statusCode == 500 || resp.statusCode == 502 || resp.statusCode == 503
    ensures resp.statusCode != 200 ==> resp.payload.Error?
    // a stored document sits under the path the first resolving attempt gave; only public reads report it
    ensures resp.statusCode == 200 <==> stored && w.publicRead
    ensures resp.statusCode == 200 ==> StoredReply(b.objects, resp, prefix, id, pid, info, path, link, w)
    ensures stored && !w.publicRead ==> resp == ErrorResponse(500, UploadFailed)
  {
    path, linkMap, sent, link, stored := "", map[], [], JNull, false;
    var resolved;
    resolved, raised := ResolveWithRetry(r, w.folders, info.folderId, info.folderName, rank);
    if resolved.None? {
      return ErrorResponse(503, RateLimitedResolving), raised, path, linkMap, sent, link, stored;
    }
    path := resolved.value;
    resp, linkMap, sent, link, stored := StoreResolved(b, prefix, resolved.value, id, pid, info, w);
    StoreReplies(old(b.objects), b.objects, prefix, path, id, pid, info, w, resp, linkMap, sent, link, stored);
  }

  /** The document the upload handler works on: a scalar integer id, a document record and a
      usable reading of it. */
  ghost function UploadTarget(body: Object, w: World): Option<(int, DocInfo)> {
    var parsed := ParseDocId(body);
    if parsed.DocId? && parsed.value.JInt? && w.docMeta.Some? then
      var id := parsed.value.i;
      match ReadDocInfo(w.docMeta.value, "document_" + IntToString(id), "Documents")
      case Some(info) => Some((id, info))
      case None => None
    else None
  }

  /** `handle_single_document_upload`. The resolver `r` carries the processor's path cache. With
      `S3_PUBLIC_READ` off (its default) a document that is stored is still answered with a 500. */
  method HandleSingleDocumentUpload(b: Bucket, r: FolderResolver, body: Object, s3Prefix: string, w: World,
                                    ghost rank: int -> nat)
    returns (resp: Response, ghost raised: nat, ghost path: string, ghost linkMap: map<int, Json>,
             ghost sent: seq<Post>, ghost link: Json, ghost stored: bool)
    requires forall n :: Ranked(w.folders(n), rank)
    requires BatchesShaped(w.links)
    modifies b, r
    ensures ParseDocId(body).NoDocId? ==>
      resp == ErrorResponse(400, MissingDocumentId) && b.objects == old(b.objects) && r.cache == old(r.cache)
    // an unparsable id, a non-integer id, a missing or unusable record: 500 with nothing changed
    ensures !ParseDocId(body).NoDocId? && UploadTarget(body, w).None? ==>
      resp == ErrorResponse(500, InternalError) && b.objects == old(b.objects) && r.cache == old(r.cache)
    // otherwise the strict resolution with retries, then the store
    ensures UploadTarget(body, w).Some? ==>
      var (id, info) := UploadTarget(body, w).value;
      var pid := ExtractProjectId(body);
      UploadOutcome(old(b.objects), old(r.cache), b.objects, r.cache, WebhookPrefix(s3Prefix, ProjectName(w.projectReply, pid)),
                    id, pid, info, w, rank, resp, raised, path, linkMap, sent, link, stored)
    ensures resp.statusCode == 200 || resp.statusCode == 400 || resp.statusCode == 500 ||
            resp.statusCode == 502 || resp.statusCode == 503
    ensures resp.statusCode != 200 ==> resp.payload.Error?
    ensures resp.statusCode == 503 ==> UploadTarget(body, w).Some?
    ensures resp.statusCode == 200 <==> stored && w.publicRead
    ensures stored && !w.publicRead ==> resp == ErrorResponse(500, UploadFailed)
    ensures stored ==> UploadTarget(body, w).Some?
  {
    path, linkMap, sent, link, stored := "", map[], [], JNull, false;
    raised := 0;
    var parsed := ParseDocId(body);
    if parsed.NoDocId? {
      return ErrorResponse(400, MissingDocumentId), raised, path, linkMap, sent, link, stored;
    }
    if parsed.BadDocId? || !parsed.value.JInt? || w.docMeta.None? {
      return ErrorResponse(500, InternalError), raised, path, linkMap, sent, link, stored;
    }
    var id := parsed.value.i;
    var pid := ExtractProjectId(body);
    var prefix := WebhookPrefix(s3Prefix, ProjectName(w.projectReply, pid));
    var info := ReadDocInfo(w.docMeta.value, "document_" + IntToString(id), "Documents");
    if info.None? {
      return ErrorResponse(500, InternalError), raised, path, linkMap, sent, link, stored;
    }
    resp, raised, path, linkMap, sent, link, stored := UploadDocument(b, r, prefix, id, pid, info.value, w, rank);
  }
}
