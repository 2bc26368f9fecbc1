/** The webhook router: how one event is classified and which handler (or which refusal) it
    reaches. Every effect the router triggers is an outcome of `Route`; the object-store probe and
    the document probe are inputs. */
module Router {
  import opened Wrappers
  import opened Text
  import opened Json
  import opened Handlers

  /** A candidate event-type hint: a string with something besides whitespace. */
  predicate IsHint(c: Json) {
    c.JStr? && |Strip(c.s, Whitespace)| > 0
  }

  /** The position of the first element of `xs` at or after `i` that satisfies `p`; `|xs|` when
      there is none. */
  function FirstWhere<T>(xs: seq<T>, p: T -> bool, i: nat): (k: nat)
    requires i <= |xs|
    ensures i <= k <= |xs|
    ensures forall j :: i <= j < k ==> !p(xs[j])
    ensures k < |xs| ==> p(xs[k])
    decreases |xs| - i
  {
    if i == |xs| || p(xs[i]) then i else FirstWhere(xs, p, i + 1)
  }

  /** The first hint among `cands`, stripped and lower-cased; `""` when there is none. */
  function FirstHint(cands: seq<Json>): (h: string)
    ensures h == "" <==> forall j :: 0 <= j < |cands| ==> !IsHint(cands[j])
  {
    var k := FirstWhere(cands, IsHint, 0);
    if k < |cands| then
      assert |Lower(Strip(cands[k].s, Whitespace))| == |Strip(cands[k].s, Whitespace)| > 0;
      Lower(Strip(cands[k].s, Whitespace))
    else ""
  }

  /** The places an event-type hint is looked for, in order: five body fields, then the
      `x-filevine-event` header in two spellings. `headers` is the event's headers object (empty
      when absent or null). */
  function HintCandidates(body: Object, headers: Object): (cands: seq<Json>)
    ensures |cands| == 7
  {
    [Get(body, "eventType"), Get(body, "event"), Get(body, "type"), Get(body, "name"), Get(body, "action"),
     Get(headers, "x-filevine-event"), Get(headers, "X-Filevine-Event")]
  }

  /** `extract_event_type`. */
  function ExtractEventType(body: Object, headers: Object): string {
    FirstHint(HintCandidates(body, headers))
  }

  /** A chosen document-id value as `extract_document_id` reads it: an object stands for its
      `native` member, and a null or a value `int()` rejects gives no id. */
  function IdOf(raw: Json): Option<int> {
    var unwrapped := if raw.JObj? then Get(raw.fields, "native") else raw;
    if unwrapped == JNull then None else IntOf(unwrapped)
  }

  /** `extract_document_id`: the first truthy of `documentId`, `DocumentId` and `payload.documentId`
      (the last when none is), an object unwrapped to its `native` member, then `int()`; `None`
      when absent or not convertible. */
  function ExtractDocumentId(body: Object): (did: Option<int>)
    ensures Truthy(Get(body, "documentId")) ==> did == IdOf(Get(body, "documentId"))
    ensures !Truthy(Get(body, "documentId")) && Truthy(Get(body, "DocumentId")) ==> did == IdOf(Get(body, "DocumentId"))
    ensures !Truthy(Get(body, "documentId")) && !Truthy(Get(body, "DocumentId")) && Get(body, "payload").JObj?
            ==> did == IdOf(Get(Get(body, "payload").fields, "documentId"))
    ensures !Truthy(Get(body, "documentId")) && !Truthy(Get(body, "DocumentId")) && !Get(body, "payload").JObj?
            ==> did.None?
  {
    var payload := Get(body, "payload");
    var nested := if payload.JObj? then Get(payload.fields, "documentId") else JNull;
    IdOf(Or(Or(Get(body, "documentId"), Get(body, "DocumentId")), nested))
  }

  /** The three shapes `extract_document_id` documents all give the id: a bare `documentId`, a
      `DocumentId` object and a `payload.documentId` object (a bare `0` is falsy and gives none). */
  lemma DocumentIdShapes(n: int)
    ensures n != 0 ==> ExtractDocumentId(map["documentId" := JInt(n)]) == Some(n)
    ensures ExtractDocumentId(map["documentId" := JInt(0)]).None?
    ensures ExtractDocumentId(map["DocumentId" := JObj(map["native" := JInt(n)])]) == Some(n)
    ensures ExtractDocumentId(map["payload" := JObj(map["documentId" := JObj(map["native" := JInt(n)])])]) == Some(n)
  {
    assert "documentId" != "DocumentId" by { assert "documentId"[0] != "DocumentId"[0]; }
    assert "payload" != "documentId" by { assert "payload"[0] != "documentId"[0]; }
    assert "payload" != "DocumentId" by { assert "payload"[0] != "DocumentId"[0]; }
    var native := JObj(map["native" := JInt(n)]);
    assert "native" in native.fields;
    assert Truthy(native);
  }

  /** Whether some token of `tokens` occurs in `ev`: Python's `any(t in ev for t in tokens)`. */
  function AnyOccurs(ev: string, tokens: seq<string>): bool {
    tokens != [] && (Contains(ev, tokens[0]) || AnyOccurs(ev, tokens[1..]))
  }

  lemma {:induction false} AnyOccursMeans(ev: string, tokens: seq<string>)
    ensures AnyOccurs(ev, tokens) <==> exists i, j :: 0 <= i < |tokens| && OccursAt(ev, tokens[i], j)
  {
    if tokens != [] {
      AnyOccursMeans(ev, tokens[1..]);
      if AnyOccurs(ev, tokens[1..]) {
        var i, j :| 0 <= i < |tokens[1..]| && OccursAt(ev, tokens[1..][i], j);
        assert OccursAt(ev, tokens[i + 1], j);
      }
      if exists i, j :: 0 <= i < |tokens| && OccursAt(ev, tokens[i], j) {
        var i, j :| 0 <= i < |tokens| && OccursAt(ev, tokens[i], j);
        if i > 0 {
          assert OccursAt(ev, tokens[1..][i - 1], j);
        }
      }
    }
  }

  const DeleteTokens: seq<string> := ["delete", "deleted", "remove", "removed", "trash", "purge"]
  const UpsertTokens: seq<string> := ["create", "created", "upload", "uploaded", "update", "updated", "rename", "moved"]

  /** `looks_like_delete`. */
  function LooksLikeDelete(ev: string): bool {
    AnyOccurs(ev, DeleteTokens)
  }

  /** `looks_like_create_or_update`. */
  function LooksLikeCreateOrUpdate(ev: string): bool {
    AnyOccurs(ev, UpsertTokens)
  }

  /** A token that occurs inside another occurs wherever that one does. */
  lemma OccursWithin(ev: string, t: string, u: string, j: int, k: nat)
    requires OccursAt(ev, u, j) && OccursAt(u, t, k)
    ensures OccursAt(ev, t, j + k)
  {
    forall i | 0 <= i < |t|
      ensures ev[j + k..j + k + |t|][i] == t[i]
    {
      assert ev[j + k + i] == ev[j..j + |u|][k + i] == u[k + i] == u[k..k + |t|][i];
    }
  }

  /** The past-tense delete tokens add nothing: a hint looks like a delete exactly when it contains
      `delete`, `remove`, `trash` or `purge`. */
  lemma DeleteTokensReduce(ev: string)
    ensures LooksLikeDelete(ev) <==> Contains(ev, "delete") || Contains(ev, "remove") || Contains(ev, "trash") || Contains(ev, "purge")
  {
    AnyOccursMeans(ev, DeleteTokens);
    if LooksLikeDelete(ev) {
      var i, j :| 0 <= i < |DeleteTokens| && OccursAt(ev, DeleteTokens[i], j);
      if i == 1 {
        OccursWithin(ev, "delete", "deleted", j, 0);
      } else if i == 3 {
        OccursWithin(ev, "remove", "removed", j, 0);
      }
    }
    if Contains(ev, "delete") || Contains(ev, "remove") || Contains(ev, "trash") || Contains(ev, "purge") {
      var i := if Contains(ev, "delete") then 0 else if Contains(ev, "remove") then 2 else if Contains(ev, "trash") then 4 else 5;
      var j :| OccursAt(ev, DeleteTokens[i], j);
    }
  }

  /** The Filevine document probe: a status, or a request that failed outright. */
  datatype Probe = Status(code: int) | RequestFailed

  /** `doc_exists`: only a 404 says the document is gone; any other status or a failed request
      counts as present, so nothing is deleted on a transient error. */
  function DocExists(p: Probe): (exists_: bool)
    ensures !exists_ <==> p == Status(404)
  {
    match p
    case Status(code) => if code == 200 then true else code != 404
    case RequestFailed => true
  }

  /** Why the router itself answers 400. */
  datatype Refusal = MissingProjectId | DeleteWithoutDocumentId | UpsertWithoutDocumentId

  /** Where an event ends up. */
  datatype Route =
    | BackgroundSync(projectId: Json)   // `sync_documents` for the raw `projectId`
    | Refused(refusal: Refusal)         // a 400 from the router
    | Skipped(pid: int)                 // a 200 `skipped`: not on the allow-list
    | SeedQueued                        // a 200 `initial_seed_queued`
    | Upload                            // `handle_document_upload`, hence the single-document upload
    | Delete                            // `handle_document_delete`
    | ProjectSync(pid: int)             // `sync_documents` for the event's project

  /** `ensure_seed_if_needed`, then the upload: a project with nothing stored under its prefix is
      seeded in the background instead (whether or not queueing the seed succeeded). */
  function SeedOrUpload(prefixListed: bool): Route {
    if prefixListed then Upload else SeedQueued
  }

  /** Everything `lambda_handler` decides on besides the body: the headers, the parsed allow-list
      (`None` when unset, blank or unparseable), the project record, the configured prefix, whether
      the store lists any object under a prefix, and the answer to the document probe. */
  datatype Context = Context(headers: Object, allowList: Option<set<int>>, projectReply: Option<Object>,
                             s3Prefix: string, listed: string -> bool, probe: Probe)

  /** The prefix the seed check probes: the project prefix of the full sync. */
  function SeedPrefix(body: Object, ctx: Context): string {
    SyncPrefixAsWritten(ctx.s3Prefix, ProjectName(ctx.projectReply, ExtractProjectId(body)))
  }

  /** Whether the project passes the allow-list: an absent or empty list filters nothing. */
  predicate Allowed(allowList: Option<set<int>>, pid: int) {
    allowList.None? || allowList.value == {} || pid in allowList.value
  }

  /** An event that passes the front checks: no background flag, a project id, allowed. */
  predicate Front(body: Object, ctx: Context) {
    !Truthy(Get(body, "__background_sync")) && ExtractProjectId(body) != 0 && Allowed(ctx.allowList, ExtractProjectId(body))
  }

  /** `lambda_handler`'s decision. */
  function RouteEvent(body: Object, ctx: Context): (r: Route)
    // a background run bypasses every other check
    ensures r.BackgroundSync? <==> Truthy(Get(body, "__background_sync"))
    ensures r == Refused(MissingProjectId) <==> !Truthy(Get(body, "__background_sync")) && ExtractProjectId(body) == 0
    ensures r.Skipped? <==> !Truthy(Get(body, "__background_sync")) && ExtractProjectId(body) != 0 &&
                            !Allowed(ctx.allowList, ExtractProjectId(body))
    // only the handlers, the seed and the project sync remain once the front checks pass
    ensures !Truthy(Get(body, "__background_sync")) && ExtractProjectId(body) != 0 && Allowed(ctx.allowList, ExtractProjectId(body))
            ==> (r.Refused? || r == SeedQueued || r == Upload || r == Delete || r == ProjectSync(ExtractProjectId(body)))
    // every handler call and the seed carry a document id
    ensures r == Upload || r == Delete || r == SeedQueued ==> ExtractDocumentId(body).Some?
    // a hint naming both a delete and an update is a delete
    ensures var ev := ExtractEventType(body, ctx.headers);
            r.Refused? && r.refusal != MissingProjectId ==> ExtractDocumentId(body).None? && (LooksLikeDelete(ev) || LooksLikeCreateOrUpdate(ev))
    ensures var ev := ExtractEventType(body, ctx.headers);
            r == Delete ==> LooksLikeDelete(ev) || (!LooksLikeCreateOrUpdate(ev) && !DocExists(ctx.probe))
    ensures var ev := ExtractEventType(body, ctx.headers);
            r == Upload || r == SeedQueued ==> !LooksLikeDelete(ev) && (LooksLikeCreateOrUpdate(ev) || DocExists(ctx.probe))
    // no upload into a project that has nothing stored yet
    ensures r == Upload ==> ctx.listed(SeedPrefix(body, ctx))
    ensures r == SeedQueued ==> !ctx.listed(SeedPrefix(body, ctx))
    // an unclassified event without a document id refreshes the whole project
    ensures r.ProjectSync? ==> ExtractDocumentId(body).None? && r.pid == ExtractProjectId(body)
    // the decision table past the front checks, one row per (hint, id, probe) class
    ensures var ev := ExtractEventType(body, ctx.headers);
            Front(body, ctx) && LooksLikeDelete(ev) ==>
              r == (if ExtractDocumentId(body).None? then Refused(DeleteWithoutDocumentId) else Delete)
    ensures var ev := ExtractEventType(body, ctx.headers);
            Front(body, ctx) && !LooksLikeDelete(ev) && LooksLikeCreateOrUpdate(ev) && ExtractDocumentId(body).None?
            ==> r == Refused(UpsertWithoutDocumentId)
    ensures var ev := ExtractEventType(body, ctx.headers);
            Front(body, ctx) && ExtractDocumentId(body).Some? && !LooksLikeDelete(ev) && (LooksLikeCreateOrUpdate(ev) || DocExists(ctx.probe))
            ==> r == SeedOrUpload(ctx.listed(SeedPrefix(body, ctx)))
    ensures var ev := ExtractEventType(body, ctx.headers);
            Front(body, ctx) && ExtractDocumentId(body).Some? && !LooksLikeDelete(ev) && !LooksLikeCreateOrUpdate(ev) && !DocExists(ctx.probe)
            ==> r == Delete
    ensures var ev := ExtractEventType(body, ctx.headers);
            Front(body, ctx) && ExtractDocumentId(body).None? && !LooksLikeDelete(ev) && !LooksLikeCreateOrUpdate(ev)
            ==> r == ProjectSync(ExtractProjectId(body))
  {
    if Truthy(Get(body, "__background_sync")) then BackgroundSync(Get(body, "projectId"))
    else
      var pid := ExtractProjectId(body);
      if pid == 0 then Refused(MissingProjectId)
      else if !Allowed(ctx.allowList, pid) then Skipped(pid)
      else
        var ev := ExtractEventType(body, ctx.headers);
        var did := ExtractDocumentId(body);
        var listed := ctx.listed(SeedPrefix(body, ctx));
        if LooksLikeDelete(ev) then
          if did.None? then Refused(DeleteWithoutDocumentId) else Delete
        else if LooksLikeCreateOrUpdate(ev) then
          if did.None? then Refused(UpsertWithoutDocumentId) else SeedOrUpload(listed)
        else if did.Some? then
          if DocExists(ctx.probe) then SeedOrUpload(listed) else Delete
        else ProjectSync(pid)
  }

  /** The router and the handlers disagree on where a document id may sit: an id given only as
      `payload.documentId` routes the event to a handler, and the handler, which reads only
      `documentId` and `DocumentId`, answers 400 "Missing document ID". */
  lemma PayloadIdReachesHandlerWithoutId(body: Object, ctx: Context)
    requires !Truthy(Get(body, "documentId")) && Get(body, "DocumentId") == JNull
    requires Get(body, "payload").JObj? && IntOf(Get(Get(body, "payload").fields, "documentId")).Some?
    requires !Truthy(Get(body, "__background_sync")) && ExtractProjectId(body) != 0 && Allowed(ctx.allowList, ExtractProjectId(body))
    requires LooksLikeDelete(ExtractEventType(body, ctx.headers))
    ensures RouteEvent(body, ctx) == Delete
    ensures ParseDocId(body) == NoDocId
  {
    PayloadIdExtracted(body);
    assert Front(body, ctx);
    DeleteWithIdRoutes(body, ctx);
  }

  /** An id given only as `payload.documentId` is one the router extracts. */
  lemma PayloadIdExtracted(body: Object)
    requires !Truthy(Get(body, "documentId")) && !Truthy(Get(body, "DocumentId"))
    requires Get(body, "payload").JObj? && IntOf(Get(Get(body, "payload").fields, "documentId")).Some?
    ensures ExtractDocumentId(body).Some?
  {
    var nested := Get(Get(body, "payload").fields, "documentId");
    assert nested != JNull && !nested.JObj?;
    assert ExtractDocumentId(body) == IdOf(nested);
  }

  /** A delete-like event with an id that passes the front checks is routed to the delete handler. */
  lemma DeleteWithIdRoutes(body: Object, ctx: Context)
    requires Front(body, ctx) && LooksLikeDelete(ExtractEventType(body, ctx.headers)) && ExtractDocumentId(body).Some?
    ensures RouteEvent(body, ctx) == Delete
  {
  }
}
