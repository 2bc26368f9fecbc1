/** The full sync of one project: the folder structure, the documents mapped onto it, a placeholder
    for every folder level, then every document downloaded and stored under its folder. */
module Sync {
  import opened Wrappers
  import opened Text
  import opened Json
  import opened Names
  import opened Remote
  import opened Resolver
  import opened Discovery
  import opened Documents
  import opened Complete
  import opened DocMapping
  import opened Links
  import opened Store
  import opened Handlers

  /** One GET of a download link. */
  datatype GetReply = Fetched(content: Bytes) | HttpFailure(code: int) | NetworkFailure

  /** A failure the file download retries: 429, a 5xx, or a network error. */
  predicate Transient(g: GetReply) {
    g.NetworkFailure? || (g.HttpFailure? && (g.code == 429 || 500 <= g.code < 600))
  }

  /** `MAX_GET_RETRIES`: a download gives up when a transient failure pushes the retry count past it. */
  const MaxGetRetries := 4

  /** The download of a link from try `i` on, `gets(n)` being the reply to the `n`-th try: the
      first fetched body, unless a non-transient failure, or a transient one at the last try,
      comes first. */
  function DownloadFrom(gets: nat -> GetReply, i: nat): Option<Bytes>
    requires i <= MaxGetRetries
    decreases MaxGetRetries - i
  {
    match gets(i)
    case Fetched(c) => Some(c)
    case _ => if Transient(gets(i)) && i < MaxGetRetries then DownloadFrom(gets, i + 1) else None
  }

  /** A download succeeds exactly when some try within the limit fetched the body and every try
      before it failed transiently; the body is that try's. */
  lemma {:induction false} DownloadFetched(gets: nat -> GetReply, i: nat)
    requires i <= MaxGetRetries
    ensures DownloadFrom(gets, i).Some? ==>
              exists d :: i <= d <= MaxGetRetries && gets(d) == Fetched(DownloadFrom(gets, i).value)
                          && forall j :: i <= j < d ==> Transient(gets(j))
    decreases MaxGetRetries - i
  {
    if DownloadFrom(gets, i).Some? && !gets(i).Fetched? {
      DownloadFetched(gets, i + 1);
      var d :| i + 1 <= d <= MaxGetRetries && gets(d) == Fetched(DownloadFrom(gets, i + 1).value)
               && forall j :: i + 1 <= j < d ==> Transient(gets(j));
      assert forall j :: i <= j < d ==> Transient(gets(j));
    }
  }

  /** Five transient failures in a row and the document is given up. */
  lemma {:induction false} TransientsExhaust(gets: nat -> GetReply, i: nat)
    requires i <= MaxGetRetries
    requires forall j :: i <= j <= MaxGetRetries ==> Transient(gets(j))
    ensures DownloadFrom(gets, i) == None
    decreases MaxGetRetries - i
  {
    assert Transient(gets(i));
    if i < MaxGetRetries {
      TransientsExhaust(gets, i + 1);
    }
  }

  /** The GET retry loop of `sync_documents`. `retries` counts the transient failures retried. */
  method DownloadWithRetry(gets: nat -> GetReply) returns (content: Option<Bytes>, retries: nat)
    ensures content == DownloadFrom(gets, 0)
    ensures retries <= MaxGetRetries && forall i :: 0 <= i < retries ==> Transient(gets(i))
    ensures content.Some? ==> gets(retries) == Fetched(content.value)
  {
    var attempt := 0;
    var done := false;
    content := None;
    while !done
      invariant attempt <= MaxGetRetries
      invariant forall i :: 0 <= i < attempt ==> Transient(gets(i))
      invariant !done ==> DownloadFrom(gets, attempt) == DownloadFrom(gets, 0)
      invariant done ==> content == DownloadFrom(gets, 0) && (content.Some? ==> gets(attempt) == Fetched(content.value))
      decreases MaxGetRetries - attempt, if done then 0 else 1
    {
      var g := gets(attempt);
      if g.Fetched? {
        content := Some(g.content);
        done := true;
      } else if Transient(g) && attempt < MaxGetRetries {
        attempt := attempt + 1;
      } else {
        content := None;
        done := true;
      }
    }
    retries := attempt;
  }

  /** Where the sync stores a document: `<project prefix><folder path>/<filename>`. */
  function DocKey(prefix: string, m: MappedDoc): string {
    prefix + m.folderPath + "/" + m.doc.filename
  }

  /** `link_by_id.get(doc_id)`. */
  function LinkFor(links: map<int, Json>, id: int): Json {
    if id in links then links[id] else JNull
  }

  /** The object the sync stores for document `m` of project `pid`, holding `content`. */
  ghost predicate HoldsDoc(o: Obj, m: MappedDoc, pid: int, content: Bytes) {
    o.body == content &&
    o.tags == DocTags(IntToString(m.doc.id), pid) &&
    o.metadata == DocMetadata(IntToString(m.doc.id), pid, FolderIdText(Some(m.doc.folderId)), m.folderPath)
  }

  /** A document is stored when it has a link, its download succeeds and the store accepts it. */
  predicate Succeeds(prefix: string, m: MappedDoc, link: Json, gets: nat -> GetReply, putFails: string -> bool) {
    Truthy(link) && DownloadFrom(gets, 0).Some? && !putFails(DocKey(prefix, m))
  }

  /** One document of the upload loop. */
  method SyncOne(b: Bucket, prefix: string, pid: int, m: MappedDoc, link: Json, gets: nat -> GetReply,
                 mime: string -> Option<string>, putFails: string -> bool)
    returns (ok: bool)
    modifies b
    ensures ok <==> Succeeds(prefix, m, link, gets, putFails)
    ensures !ok ==> b.objects == old(b.objects)
    ensures ok ==> DocKey(prefix, m) in b.objects &&
                   b.objects == old(b.objects)[DocKey(prefix, m) := b.objects[DocKey(prefix, m)]] &&
                   HoldsDoc(b.objects[DocKey(prefix, m)], m, pid, DownloadFrom(gets, 0).value)
  {
    if !Truthy(link) {
      return false;
    }
    var content, retries := DownloadWithRetry(gets);
    if content.None? {
      return false;
    }
    var key := DocKey(prefix, m);
    var id := IntToString(m.doc.id);
    ok := b.UploadToS3(key, content.value, m.doc.filename, mime(m.doc.filename),
                       DocMetadata(id, pid, FolderIdText(Some(m.doc.folderId)), m.folderPath),
                       DocTags(id, pid), putFails(key));
  }

  /** The number of `true` outcomes. */
  function Trues(s: seq<bool>): (n: nat)
    ensures n <= |s|
  {
    if s == [] then 0 else Trues(s[..|s| - 1]) + (if s[|s| - 1] then 1 else 0)
  }

  /** The key of each mapped document, in order. */
  function Keys(prefix: string, mapped: seq<MappedDoc>): (keys: seq<string>)
    ensures |keys| == |mapped| && forall k :: 0 <= k < |mapped| ==> keys[k] == DocKey(prefix, mapped[k])
  {
    seq(|mapped|, k requires 0 <= k < |mapped| => DocKey(prefix, mapped[k]))
  }

  /** What the upload loop has written over `objects0`: `writer` maps every key it stored to the
      last document stored there, which holds that document's download; every stored document's
      key has a writer no earlier than it; every other key is as it was. */
  ghost predicate Written(objects0: map<string, Obj>, objects: map<string, Obj>, writer: map<string, nat>,
                          keys: seq<string>, pid: int, mapped: seq<MappedDoc>, outcomes: seq<bool>,
                          gets: nat -> nat -> GetReply)
  {
    && |outcomes| <= |mapped| == |keys|
    && (forall key :: key in writer ==> WrittenBy(objects, writer, key, keys, pid, mapped, outcomes, gets))
    && (forall k :: 0 <= k < |outcomes| && outcomes[k] ==> keys[k] in writer && k <= writer[keys[k]])
    && (forall key :: key !in writer ==> (key in objects <==> key in objects0))
    && (forall key :: key !in writer && key in objects ==> objects[key] == objects0[key])
  }

  /** `key`'s writer is a document stored with success, whose key it is, and the object under `key`
      holds that document's download. */
  ghost predicate WrittenBy(objects: map<string, Obj>, writer: map<string, nat>, key: string, keys: seq<string>,
                            pid: int, mapped: seq<MappedDoc>, outcomes: seq<bool>, gets: nat -> nat -> GetReply)
    requires key in writer && |outcomes| <= |mapped| == |keys|
  {
    && writer[key] < |outcomes| && outcomes[writer[key]]
    && key == keys[writer[key]]
    && key in objects
    && DownloadFrom(gets(writer[key]), 0).Some?
    && HoldsDoc(objects[key], mapped[writer[key]], pid, DownloadFrom(gets(writer[key]), 0).value)
  }

  /** A document that failed leaves the record as it was. */
  lemma WrittenSkip(objects0: map<string, Obj>, objects: map<string, Obj>, writer: map<string, nat>, keys: seq<string>,
                    pid: int, mapped: seq<MappedDoc>, outcomes: seq<bool>, gets: nat -> nat -> GetReply)
    requires Written(objects0, objects, writer, keys, pid, mapped, outcomes, gets)
    requires |outcomes| < |mapped|
    ensures Written(objects0, objects, writer, keys, pid, mapped, outcomes + [false], gets)
  {
    var outcomes' := outcomes + [false];
    assert forall k :: 0 <= k < |outcomes| ==> outcomes'[k] == outcomes[k];
  }

  /** A document stored under its key becomes that key's writer. */
  lemma WrittenStore(objects0: map<string, Obj>, objects: map<string, Obj>, objects': map<string, Obj>,
                     writer: map<string, nat>, keys: seq<string>, pid: int, mapped: seq<MappedDoc>,
                     outcomes: seq<bool>, gets: nat -> nat -> GetReply)
    requires Written(objects0, objects, writer, keys, pid, mapped, outcomes, gets)
    requires |outcomes| < |mapped|
    requires var key := keys[|outcomes|];
             key in objects' && objects' == objects[key := objects'[key]] &&
             DownloadFrom(gets(|outcomes|), 0).Some? &&
             HoldsDoc(objects'[key], mapped[|outcomes|], pid, DownloadFrom(gets(|outcomes|), 0).value)
    ensures Written(objects0, objects', writer[keys[|outcomes|] := |outcomes|], keys, pid, mapped, outcomes + [true],
                    gets)
  {
    StoreWriters(objects, objects', writer, keys, pid, mapped, outcomes, gets);
    StoreOrder(writer, keys, outcomes);
    StoreFrame(objects0, objects, objects', writer, keys[|outcomes|], |outcomes|);
  }

  /** The writers recorded so far still hold their documents, and the new one holds its own. */
  lemma StoreWriters(objects: map<string, Obj>, objects': map<string, Obj>, writer: map<string, nat>,
                     keys: seq<string>, pid: int, mapped: seq<MappedDoc>, outcomes: seq<bool>,
                     gets: nat -> nat -> GetReply)
    requires |outcomes| < |mapped| == |keys|
    requires forall x :: x in writer ==> WrittenBy(objects, writer, x, keys, pid, mapped, outcomes, gets)
    requires var key := keys[|outcomes|];
             key in objects' && objects' == objects[key := objects'[key]] &&
             DownloadFrom(gets(|outcomes|), 0).Some? &&
             HoldsDoc(objects'[key], mapped[|outcomes|], pid, DownloadFrom(gets(|outcomes|), 0).value)
    ensures var writer' := writer[keys[|outcomes|] := |outcomes|];
            forall x :: x in writer' ==> WrittenBy(objects', writer', x, keys, pid, mapped, outcomes + [true], gets)
  {
    var i := |outcomes|;
    var outcomes' := outcomes + [true];
    var key := keys[i];
    var writer' := writer[key := i];
    forall x | x in writer' ensures WrittenBy(objects', writer', x, keys, pid, mapped, outcomes', gets) {
      if x != key {
        assert WrittenBy(objects, writer, x, keys, pid, mapped, outcomes, gets);
        var w := writer[x];
        assert writer'[x] == w && outcomes'[w] == outcomes[w] && objects'[x] == objects[x];
      }
    }
  }

  /** Every successful document keeps a writer no earlier than itself. */
  lemma StoreOrder<K>(writer: map<K, nat>, keys: seq<K>, outcomes: seq<bool>)
    requires |outcomes| < |keys|
    requires forall k :: 0 <= k < |outcomes| && outcomes[k] ==> keys[k] in writer && k <= writer[keys[k]]
    ensures var o := outcomes + [true];
            var w := writer[keys[|outcomes|] := |outcomes|];
            forall k :: 0 <= k < |o| && o[k] ==> keys[k] in w && k <= w[keys[k]]
  {
    var o := outcomes + [true];
    assert forall k :: 0 <= k < |outcomes| ==> o[k] == outcomes[k];
  }

  /** A key without a writer is as it was in `objects0`, once more after a store under `key`. */
  lemma StoreFrame<K, V>(objects0: map<K, V>, objects: map<K, V>, objects': map<K, V>, writer: map<K, nat>,
                         key: K, n: nat)
    requires forall x :: x !in writer ==> (x in objects <==> x in objects0)
    requires forall x :: x !in writer && x in objects ==> objects[x] == objects0[x]
    requires key in objects' && objects' == objects[key := objects'[key]]
    ensures forall x :: x !in writer[key := n] ==> (x in objects' <==> x in objects0)
    ensures forall x :: x !in writer[key := n] && x in objects' ==> objects'[x] == objects0[x]
  {
  }

  lemma TruesSnoc(s: seq<bool>, b: bool)
    ensures Trues(s + [b]) == Trues(s) + (if b then 1 else 0)
  {
    assert (s + [b])[..|s|] == s;
  }

  /** What the upload loop has done after `i` documents: one outcome each, the outcome of
      `SyncOne` for that document, the counters summing them, and the stores `Written` records. */
  ghost predicate Progress(prefix: string, pid: int, mapped: seq<MappedDoc>, links: map<int, Json>,
                           gets: nat -> nat -> GetReply, putFails: string -> bool, i: nat, uploaded: nat, failed: nat,
                           outcomes: seq<bool>, writer: map<string, nat>, objects0: map<string, Obj>,
                           objects: map<string, Obj>)
  {
    && i <= |mapped| && |outcomes| == i && uploaded == Trues(outcomes) && uploaded + failed == i
    && (forall k :: 0 <= k < i ==>
          outcomes[k] == Succeeds(prefix, mapped[k], LinkFor(links, mapped[k].doc.id), gets(k), putFails))
    && Written(objects0, objects, writer, Keys(prefix, mapped), pid, mapped, outcomes, gets)
  }

  /** One round of the upload loop: document `i` synced and its outcome counted. */
  method UploadStep(b: Bucket, prefix: string, pid: int, mapped: seq<MappedDoc>, links: map<int, Json>,
                    gets: nat -> nat -> GetReply, mime: string -> Option<string>, putFails: string -> bool,
                    i: nat, uploaded: nat, failed: nat, ghost outcomes: seq<bool>, ghost writer: map<string, nat>,
                    ghost objects0: map<string, Obj>)
    returns (uploaded': nat, failed': nat, ghost outcomes': seq<bool>, ghost writer': map<string, nat>)
    requires i < |mapped|
    requires Progress(prefix, pid, mapped, links, gets, putFails, i, uploaded, failed, outcomes, writer, objects0, b.objects)
    modifies b
    ensures Progress(prefix, pid, mapped, links, gets, putFails, i + 1, uploaded', failed', outcomes', writer',
                     objects0, b.objects)
  {
    ghost var before := b.objects;
    var ok := SyncOne(b, prefix, pid, mapped[i], LinkFor(links, mapped[i].doc.id), gets(i), mime, putFails);
    if ok {
      ProgressStored(prefix, pid, mapped, links, gets, putFails, i, uploaded, failed, outcomes, writer, objects0,
                     before, b.objects);
      uploaded', failed', outcomes', writer' := uploaded + 1, failed, outcomes + [true], writer[DocKey(prefix, mapped[i]) := i];
    } else {
      ProgressSkipped(prefix, pid, mapped, links, gets, putFails, i, uploaded, failed, outcomes, writer, objects0,
                      before);
      uploaded', failed', outcomes', writer' := uploaded, failed + 1, outcomes + [false], writer;
    }
  }

  /** A document that is stored moves the loop on by one success. */
  lemma ProgressStored(prefix: string, pid: int, mapped: seq<MappedDoc>, links: map<int, Json>,
                       gets: nat -> nat -> GetReply, putFails: string -> bool, i: nat, uploaded: nat, failed: nat,
                       outcomes: seq<bool>, writer: map<string, nat>, objects0: map<string, Obj>,
                       objects: map<string, Obj>, objects': map<string, Obj>)
    requires i < |mapped|
    requires Progress(prefix, pid, mapped, links, gets, putFails, i, uploaded, failed, outcomes, writer, objects0, objects)
    requires Succeeds(prefix, mapped[i], LinkFor(links, mapped[i].doc.id), gets(i), putFails)
    requires var key := DocKey(prefix, mapped[i]);
             key in objects' && objects' == objects[key := objects'[key]] &&
             DownloadFrom(gets(i), 0).Some? && HoldsDoc(objects'[key], mapped[i], pid, DownloadFrom(gets(i), 0).value)
    ensures Progress(prefix, pid, mapped, links, gets, putFails, i + 1, uploaded + 1, failed, outcomes + [true],
                     writer[DocKey(prefix, mapped[i]) := i], objects0, objects')
  {
    var keys := Keys(prefix, mapped);
    assert keys[i] == DocKey(prefix, mapped[i]);
    WrittenStore(objects0, objects, objects', writer, keys, pid, mapped, outcomes, gets);
    SnocOutcome(prefix, mapped, links, gets, putFails, i, outcomes, true);
  }

  /** A document that fails moves the loop on by one failure, the store untouched. */
  lemma ProgressSkipped(prefix: string, pid: int, mapped: seq<MappedDoc>, links: map<int, Json>,
                        gets: nat -> nat -> GetReply, putFails: string -> bool, i: nat, uploaded: nat, failed: nat,
                        outcomes: seq<bool>, writer: map<string, nat>, objects0: map<string, Obj>,
                        objects: map<string, Obj>)
    requires i < |mapped|
    requires Progress(prefix, pid, mapped, links, gets, putFails, i, uploaded, failed, outcomes, writer, objects0, objects)
    requires !Succeeds(prefix, mapped[i], LinkFor(links, mapped[i].doc.id), gets(i), putFails)
    ensures Progress(prefix, pid, mapped, links, gets, putFails, i + 1, uploaded, failed + 1, outcomes + [false],
                     writer, objects0, objects)
  {
    WrittenSkip(objects0, objects, writer, Keys(prefix, mapped), pid, mapped, outcomes, gets);
    SnocOutcome(prefix, mapped, links, gets, putFails, i, outcomes, false);
  }

  /** The outcomes stay those of `SyncOne`, one more appended, and their count of successes grows
      with it. */
  lemma SnocOutcome(prefix: string, mapped: seq<MappedDoc>, links: map<int, Json>, gets: nat -> nat -> GetReply,
                    putFails: string -> bool, i: nat, outcomes: seq<bool>, ok: bool)
    requires i < |mapped| && |outcomes| == i
    requires forall k :: 0 <= k < i ==>
               outcomes[k] == Succeeds(prefix, mapped[k], LinkFor(links, mapped[k].doc.id), gets(k), putFails)
    requires ok == Succeeds(prefix, mapped[i], LinkFor(links, mapped[i].doc.id), gets(i), putFails)
    ensures forall k :: 0 <= k < i + 1 ==>
              (outcomes + [ok])[k] == Succeeds(prefix, mapped[k], LinkFor(links, mapped[k].doc.id), gets(k), putFails)
    ensures Trues(outcomes + [ok]) == Trues(outcomes) + (if ok then 1 else 0)
  {
    TruesSnoc(outcomes, ok);
    assert forall k :: 0 <= k < i ==> (outcomes + [ok])[k] == outcomes[k];
  }

  /** The upload loop of `sync_documents`: each mapped document in order, its link looked up, its
      body downloaded (`gets(k)` are the replies for the `k`-th document) and stored. */
  method UploadAll(b: Bucket, prefix: string, pid: int, mapped: seq<MappedDoc>, links: map<int, Json>,
                   gets: nat -> nat -> GetReply, mime: string -> Option<string>, putFails: string -> bool)
    returns (uploaded: nat, failed: nat, ghost outcomes: seq<bool>, ghost writer: map<string, nat>)
    modifies b
    ensures |outcomes| == |mapped| && uploaded == Trues(outcomes) && uploaded + failed == |mapped|
    ensures forall k :: 0 <= k < |mapped| ==>
              outcomes[k] == Succeeds(prefix, mapped[k], LinkFor(links, mapped[k].doc.id), gets(k), putFails)
    ensures Written(old(b.objects), b.objects, writer, Keys(prefix, mapped), pid, mapped, outcomes, gets)
  {
    uploaded, failed, outcomes, writer := 0, 0, [], map[];
    for i := 0 to |mapped|
      invariant Progress(prefix, pid, mapped, links, gets, putFails, i, uploaded, failed, outcomes, writer,
                         old(b.objects), b.objects)
    {
      uploaded, failed, outcomes, writer := UploadStep(b, prefix, pid, mapped, links, gets, mime, putFails, i,
                                                       uploaded, failed, outcomes, writer, old(b.objects));
    }
  }

  /** The summary `sync_documents` returns (its `status` is always `success`). */
  datatype SyncResult = SyncResult(projectId: int, projectName: string, documentCount: nat,
                                   uploadedCount: nat, failedCount: nat)

  /** The second half of `sync_documents`, once the documents are mapped onto `paths`: the
      placeholders, then (when there are documents) their links and their uploads. */
  method StoreAll(b: Bucket, prefix: string, pid: int, mapped: seq<MappedDoc>, paths: set<string>,
                  links: Replies, gets: nat -> nat -> GetReply, mime: string -> Option<string>,
                  headFails: string -> bool, putFails: string -> bool)
    returns (uploaded: nat, failed: nat, ghost linkMap: map<int, Json>, ghost sent: seq<Post>,
             ghost outcomes: seq<bool>, ghost writer: map<string, nat>)
    requires BatchesShaped(links)
    modifies b
    ensures |outcomes| == |mapped| && uploaded == Trues(outcomes) && uploaded + failed == |mapped|
    // the links are those the link endpoint's replies to the POSTs in `sent` carried
    ensures LinksFetched(links, IdsOf(mapped), linkMap, sent)
    ensures forall k :: 0 <= k < |mapped| ==>
              outcomes[k] == Succeeds(prefix, mapped[k], LinkFor(linkMap, mapped[k].doc.id), gets(k), putFails)
    ensures Written(WithPlaceholders(old(b.objects), PlaceholderKeys(prefix, Levels(paths), headFails)),
                    b.objects, writer, Keys(prefix, mapped), pid, mapped, outcomes, gets)
  {
    b.EnsurePlaceholders(prefix, paths, headFails);
    if mapped == [] {
      NoIdsNoLog(links);
      return 0, 0, map[], [], [], map[];
    }
    var linkById, posts := GetDownloadLinksBatch(links, IdsOf(mapped));
    linkMap, sent := linkById, posts;
    uploaded, failed, outcomes, writer := UploadAll(b, prefix, pid, mapped, linkById, gets, mime, putFails);
  }

  /** The first half of `sync_documents`: the complete folder structure, then every document
      mapped onto it. */
  method MapProject(r: FolderResolver, api: FolderApi, rootPages: Listing, ch: ChildListings, docs: seq<Doc>,
                    ghost rank: int -> nat, ghost crank: int -> nat)
    returns (ghost folderMap: map<int, string>, ghost reached: set<int>, paths: set<string>, mapped: seq<MappedDoc>)
    requires Ranked(api, rank) && KidsRanked(ch, crank) && WellFormedCache(r.cache)
    modifies r
    ensures WellFormedCache(r.cache) && CompleteStructure(api, ch, rootPages, Some(docs), folderMap, r.cache, "Documents", reached)
    ensures DocsOf(mapped) == docs && PathsOf(mapped) == FolderPaths(api, folderMap, folderMap, docs, 0, "Documents", rank)
    ensures paths == ValuesOf(folderMap) + PathSet(mapped) + {"Documents"}
  {
    var structure;
    structure, reached := FetchCompleteFolderStructure(api, rootPages, ch, Some(docs), r, rank, crank);
    folderMap := structure;
    paths, mapped := EnsureAllFoldersAndMapDocs(api, structure, docs, rank);
  }

  /** The body of `sync_documents` once the project's name and prefix are known. */
  method SyncUnder(b: Bucket, r: FolderResolver, prefix: string, pid: int, name: string,
                   api: FolderApi, rootPages: Listing, ch: ChildListings, docs: seq<Doc>,
                   links: Replies, gets: nat -> nat -> GetReply, mime: string -> Option<string>,
                   headFails: string -> bool, putFails: string -> bool,
                   ghost rank: int -> nat, ghost crank: int -> nat)
    returns (result: SyncResult, ghost folderMap: map<int, string>, ghost reached: set<int>,
             ghost mapped: seq<MappedDoc>, ghost paths: set<string>, ghost linkMap: map<int, Json>,
             ghost sent: seq<Post>, ghost outcomes: seq<bool>, ghost writer: map<string, nat>)
    requires Ranked(api, rank) && KidsRanked(ch, crank) && WellFormedCache(r.cache)
    requires BatchesShaped(links)
    modifies b, r
    ensures |outcomes| == |docs|
    ensures result == SyncResult(pid, name, |docs|, Trues(outcomes), |docs| - Trues(outcomes))
    ensures WellFormedCache(r.cache) && CompleteStructure(api, ch, rootPages, Some(docs), folderMap, r.cache, "Documents", reached)
    ensures DocsOf(mapped) == docs && PathsOf(mapped) == FolderPaths(api, folderMap, folderMap, docs, 0, "Documents", rank)
    ensures paths == ValuesOf(folderMap) + PathSet(mapped) + {"Documents"}
    ensures LinksFetched(links, IdsOf(mapped), linkMap, sent)
    ensures forall k :: 0 <= k < |docs| ==>
              outcomes[k] == Succeeds(prefix, mapped[k], LinkFor(linkMap, mapped[k].doc.id), gets(k), putFails)
    ensures Written(WithPlaceholders(old(b.objects), PlaceholderKeys(prefix, Levels(paths), headFails)),
                    b.objects, writer, Keys(prefix, mapped), pid, mapped, outcomes, gets)
  {
    var folderPaths, docsWithPaths;
    folderMap, reached, folderPaths, docsWithPaths := MapProject(r, api, rootPages, ch, docs, rank, crank);
    paths, mapped := folderPaths, docsWithPaths;
    var uploaded, failed;
    uploaded, failed, linkMap, sent, outcomes, writer :=
      StoreAll(b, prefix, pid, docsWithPaths, folderPaths, links, gets, mime, headFails, putFails);
    result := SyncResult(pid, name, |docs|, uploaded, failed);
  }

  /** `sync_documents`. `docs` is the project's document listing (read for the folder fallback and
      for the upload alike), `api`, `rootPages` and `ch` the folder endpoints, `links` the link
      endpoint's replies, `gets(k)` the download replies for the `k`-th document, `mime` the MIME
      registry, and `headFails`/`putFails` the keys whose HEAD or upload the store rejects. */
  method SyncDocuments(b: Bucket, r: FolderResolver, s3Prefix: string, pid: int, projectReply: Option<Object>,
                       api: FolderApi, rootPages: Listing, ch: ChildListings, docs: seq<Doc>,
                       links: Replies, gets: nat -> nat -> GetReply, mime: string -> Option<string>,
                       headFails: string -> bool, putFails: string -> bool,
                       ghost rank: int -> nat, ghost crank: int -> nat)
    returns (result: SyncResult, ghost prefix: string, ghost folderMap: map<int, string>, ghost reached: set<int>,
             ghost mapped: seq<MappedDoc>, ghost paths: set<string>, ghost linkMap: map<int, Json>,
             ghost sent: seq<Post>, ghost outcomes: seq<bool>, ghost writer: map<string, nat>)
    requires Ranked(api, rank) && KidsRanked(ch, crank) && WellFormedCache(r.cache)
    requires BatchesShaped(links)
    modifies b, r
    ensures |outcomes| == |docs|
    ensures result == SyncResult(pid, ProjectName(projectReply, pid), |docs|, Trues(outcomes), |docs| - Trues(outcomes))
    // everything is stored under the project prefix, the project name sanitized a second time
    ensures prefix == SyncPrefixAsWritten(s3Prefix, ProjectName(projectReply, pid))
    // the folder structure is the complete one, and every document is mapped onto it
    ensures WellFormedCache(r.cache) && CompleteStructure(api, ch, rootPages, Some(docs), folderMap, r.cache, "Documents", reached)
    ensures DocsOf(mapped) == docs && PathsOf(mapped) == FolderPaths(api, folderMap, folderMap, docs, 0, "Documents", rank)
    // every folder path and every document path gets its placeholders
    ensures paths == ValuesOf(folderMap) + PathSet(mapped) + {"Documents"}
    // each document is stored exactly when the link endpoint gave it a link, it downloads and is accepted
    ensures LinksFetched(links, IdsOf(mapped), linkMap, sent)
    ensures forall k :: 0 <= k < |docs| ==>
              outcomes[k] == Succeeds(prefix, mapped[k], LinkFor(linkMap, docs[k].id), gets(k), putFails)
    // the store is the old one with the placeholders, then the stored documents written over it
    ensures Written(WithPlaceholders(old(b.objects), PlaceholderKeys(prefix, Levels(paths), headFails)),
                    b.objects, writer, Keys(prefix, mapped), pid, mapped, outcomes, gets)
  {
    var name := ProjectName(projectReply, pid);
    var projectPrefix := SyncPrefixAsWritten(s3Prefix, name);
    prefix := projectPrefix;
    result, folderMap, reached, mapped, paths, linkMap, sent, outcomes, writer :=
      SyncUnder(b, r, projectPrefix, pid, name, api, rootPages, ch, docs, links, gets, mime, headFails, putFails,
                rank, crank);
  }

  /** `ids = [d["id"] for d in docs_with_paths]`. */
  function IdsOf(mapped: seq<MappedDoc>): (ids: seq<int>)
    ensures |ids| == |mapped| && forall i :: 0 <= i < |mapped| ==> ids[i] == mapped[i].doc.id
  {
    if mapped == [] then [] else IdsOf(mapped[..|mapped| - 1]) + [mapped[|mapped| - 1].doc.id]
  }
}
