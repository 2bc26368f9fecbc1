/** The download-link batcher: document ids are sent to the batch download endpoint in chunks of
    ten, each chunk retried with backoff, and every id still without a link is then asked for on
    its own. */
module Links {
  import opened Wrappers
  import opened Json

  /** Ids per batch request. */
  const ChunkSize: nat := 10
  /** Backoffs one request may spend; a request is therefore tried at most `MaxRetries + 1` times. */
  const MaxRetries: nat := 5
  /** The link lifetime the requests ask for, in seconds. */
  const TtlSeconds: nat := 600

  /** What one POST to the batch endpoint ends in, once the request layer has given up or passed
      the response on. */
  datatype PostResult =
    | Body(payload: Json)  // a response that passed, with its decoded body
    | HttpError(code: int) // an HTTP error raised by the request layer
    | Broken               // any other exception: a dropped connection, an undecodable body

  /** An HTTP error the batcher does not retry (anything but 429 and 5xx). */
  predicate HardError(r: PostResult) {
    r.HttpError? && !(r.code == 429 || 500 <= r.code < 600)
  }

  /** `(item or {}).get("downloadLink")` for an item that is an object or falsy. A truthy item of
      another kind makes Python raise: the chunk loop never meets one (see `Shaped`), and the single-id
      fallback retries on that exception exactly as on a missing link, which is what `JNull` gives. */
  function LinkOf(item: Json): (l: Json)
    ensures !item.JObj? ==> l == JNull
  {
    if item.JObj? then Get(item.fields, "downloadLink") else JNull
  }

  /** A batch reply the chunk loop can read: a list payload has no more entries than ids were sent
      (the loop indexes the chunk by the entry's position) and each entry is an object or falsy
      (the loop calls `.get` on it). */
  predicate Shaped(ids: seq<int>, r: PostResult) {
    r.Body? && r.payload.JArr? ==>
      |r.payload.items| <= |ids| &&
      forall i :: 0 <= i < |r.payload.items| ==> r.payload.items[i].JObj? || !Truthy(r.payload.items[i])
  }

  /** One POST to the endpoint: a chunk of the chunked pass, or the single id of a fallback request. */
  datatype Post = Batch(ids: seq<int>) | Single(id: int)

  /** The ids a POST sends, in order. */
  function PostIds(p: Post): (ids: seq<int>)
    ensures p.Single? ==> ids == [p.id]
  {
    if p.Batch? then p.ids else [p.id]
  }

  /** The oracle for the endpoint: `replies(p, n)` is what the n-th POST of this call, sending `p`,
      ends in. */
  type Replies = (Post, nat) -> PostResult

  /** The chunk loop can read every reply to a chunk (the fallback reads any reply). */
  ghost predicate BatchesShaped(replies: Replies) {
    forall c, n :: Shaped(c, replies(Batch(c), n))
  }

  /** A reply that carries link `v` for id `k`: some entry of its list sits at the position of `k`
      in the ids sent and holds `v`, a truthy link. */
  predicate Offers(p: Post, r: PostResult, k: int, v: Json) {
    Truthy(v) && r.Body? && r.payload.JArr? &&
    exists i :: 0 <= i < |r.payload.items| && i < |PostIds(p)| && PostIds(p)[i] == k && LinkOf(r.payload.items[i]) == v
  }

  /** Some POST of the log `sent` came back with link `v` for id `k`. */
  ghost predicate Drawn(replies: Replies, sent: seq<Post>, k: int, v: Json) {
    exists n :: 0 <= n < |sent| && Offers(sent[n], replies(sent[n], n), k, v)
  }

  /** Every id some POST of the log `sent` was offered a link for has a link in `out`. */
  ghost predicate Covers(replies: Replies, sent: seq<Post>, out: map<int, Json>) {
    forall n, k, v :: 0 <= n < |sent| && Offers(sent[n], replies(sent[n], n), k, v) ==> k in out
  }

  /** A link drawn from a log is still drawn from any longer log that starts with it. */
  lemma DrawnKept(replies: Replies, sent: seq<Post>, sent': seq<Post>, k: int, v: Json)
    requires |sent| <= |sent'| && sent'[..|sent|] == sent
    requires Drawn(replies, sent, k, v)
    ensures Drawn(replies, sent', k, v)
  {
    var n :| 0 <= n < |sent| && Offers(sent[n], replies(sent[n], n), k, v);
    assert sent'[n] == sent[n];
  }

  /** Every id sent in some POST of the log. */
  function SentIds(sent: seq<Post>): (s: set<int>)
    ensures forall n, i :: 0 <= n < |sent| && 0 <= i < |PostIds(sent[n])| ==> PostIds(sent[n])[i] in s
    ensures forall d :: d in s ==> exists n :: 0 <= n < |sent| && d in PostIds(sent[n])
  {
    set n, i | 0 <= n < |sent| && 0 <= i < |PostIds(sent[n])| :: PostIds(sent[n])[i]
  }

  /** `n` copies of `x`. */
  function Reps<T>(x: T, n: nat): (r: seq<T>)
    ensures |r| == n && forall i :: 0 <= i < n ==> r[i] == x
  {
    seq(n, _ => x)
  }

  /** The sum of `tries`. */
  function Sum(tries: seq<nat>): nat {
    if tries == [] then 0 else Sum(tries[..|tries| - 1]) + tries[|tries| - 1]
  }

  /** Each `xs[j]`, in order, repeated `tries[j]` times. */
  function Repeated<T>(xs: seq<T>, tries: seq<nat>): (r: seq<T>)
    requires |xs| == |tries|
    ensures |r| == Sum(tries)
  {
    if xs == [] then [] else Repeated(xs[..|xs| - 1], tries[..|tries| - 1]) + Reps(xs[|xs| - 1], tries[|tries| - 1])
  }

  /** One more element with its tries goes at the end of the repeated log. */
  lemma RepeatedSnoc<T>(xs: seq<T>, tries: seq<nat>, x: T, t: nat)
    requires |xs| == |tries|
    ensures Repeated(xs + [x], tries + [t]) == Repeated(xs, tries) + Reps(x, t)
  {
    assert (xs + [x])[..|xs|] == xs;
    assert (tries + [t])[..|tries|] == tries;
  }

  /** A reply after which a request is tried again: not a hard error and, for a chunk, no response
      that passed; for a single id, no link. */
  predicate Retryable(p: Post, r: PostResult) {
    !HardError(r) && (if p.Batch? then !r.Body? else SingleLink(r).None?)
  }

  /** `p` POSTed `t` times from position `start` of the log, as both retry loops do: every reply
      but the last asks for another try, and the last ends the loop unless all six tries are spent. */
  ghost predicate RetriedRun(replies: Replies, p: Post, start: nat, t: nat) {
    && 1 <= t <= MaxRetries + 1
    && (forall n :: start <= n < start + t - 1 ==> Retryable(p, replies(p, n)))
    && (t < MaxRetries + 1 ==> !Retryable(p, replies(p, start + t - 1)))
  }

  /** Each request `posts[j]` retried `tries[j]` times as `RetriedRun` says, the runs following one
      another in the log from position `base`. */
  ghost predicate Runs(replies: Replies, posts: seq<Post>, tries: seq<nat>, base: nat)
    requires |posts| == |tries|
  {
    if posts == [] then true
    else
      var k := |posts| - 1;
      Runs(replies, posts[..k], tries[..k], base) && RetriedRun(replies, posts[k], base + Sum(tries[..k]), tries[k])
  }

  /** One more run after the others. */
  lemma RunsSnoc(replies: Replies, posts: seq<Post>, tries: seq<nat>, base: nat, p: Post, t: nat)
    requires |posts| == |tries| && Runs(replies, posts, tries, base)
    requires RetriedRun(replies, p, base + Sum(tries), t)
    ensures Runs(replies, posts + [p], tries + [t], base)
  {
    assert (posts + [p])[..|posts|] == posts;
    assert (tries + [t])[..|tries|] == tries;
  }

  /** The retry rule fixes how often a request is tried: the first reply that does not ask for
      another try, or the sixth. */
  lemma RunUnique(replies: Replies, p: Post, start: nat, t1: nat, t2: nat)
    requires RetriedRun(replies, p, start, t1) && RetriedRun(replies, p, start, t2)
    ensures t1 == t2
  {
  }

  /** The retry rule fixes every run of a log of requests. */
  lemma {:induction false} RunsUnique(replies: Replies, posts: seq<Post>, t1: seq<nat>, t2: seq<nat>, base: nat)
    requires |posts| == |t1| == |t2|
    requires Runs(replies, posts, t1, base) && Runs(replies, posts, t2, base)
    ensures t1 == t2
  {
    if posts != [] {
      var k := |posts| - 1;
      RunsUnique(replies, posts[..k], t1[..k], t2[..k], base);
      RunUnique(replies, posts[k], base + Sum(t1[..k]), t1[k], t2[k]);
      assert t1 == t1[..k] + [t1[k]];
      assert t2 == t2[..k] + [t2[k]];
    }
  }

  /** A log that extends `sent` with POSTs of `p` only is `sent` followed by that many copies. */
  lemma ExtendedBy(sent: seq<Post>, sent': seq<Post>, p: Post)
    requires |sent| <= |sent'| && sent'[..|sent|] == sent
    requires forall n :: |sent| <= n < |sent'| ==> sent'[n] == p
    ensures sent' == sent + Reps(p, |sent'| - |sent|)
  {
    assert sent' == sent'[..|sent|] + sent'[|sent|..];
  }

  /** How many chunks of `ChunkSize` ids a list of `n` ids makes. */
  function NumChunks(n: nat): nat {
    (n + ChunkSize - 1) / ChunkSize
  }

  /** The `j`-th chunk of `ids`: `ids[10*j:10*j+10]`. */
  function ChunkAt(ids: seq<int>, j: nat): seq<int> {
    if ChunkSize * j + ChunkSize <= |ids| then ids[ChunkSize * j..ChunkSize * j + ChunkSize]
    else if ChunkSize * j <= |ids| then ids[ChunkSize * j..]
    else []
  }

  /** The batch POSTs of the chunked pass, one per chunk, in order. */
  function Chunks(ids: seq<int>): (ps: seq<Post>)
    ensures |ps| == NumChunks(|ids|)
  {
    seq(NumChunks(|ids|), j requires 0 <= j => Batch(ChunkAt(ids, j)))
  }

  /** The single-id POSTs of the fallback, one per id, in order. */
  function Singles(missing: seq<int>): (ps: seq<Post>)
    ensures |ps| == |missing|
  {
    seq(|missing|, j requires 0 <= j < |missing| => Single(missing[j]))
  }

  /** `sent` is the log of the chunked pass over `ids`: the chunks of ten, in order, each POSTed
      as often as the retry rule says. */
  ghost predicate ChunkLog(replies: Replies, ids: seq<int>, tries: seq<nat>, sent: seq<Post>) {
    |tries| == NumChunks(|ids|) && Runs(replies, Chunks(ids), tries, 0) && sent == Repeated(Chunks(ids), tries)
  }

  /** `sent'` is `sent` followed by the log of the fallback over `missing`: each id alone, in order,
      POSTed as often as the retry rule says. */
  ghost predicate SingleLog(replies: Replies, missing: seq<int>, tries: seq<nat>, sent: seq<Post>, sent': seq<Post>) {
    |tries| == |missing| && Runs(replies, Singles(missing), tries, |sent|) && sent' == sent + Repeated(Singles(missing), tries)
  }

  /** Some reply in the log `sent` offered a link for `d`. */
  ghost predicate OfferedIn(replies: Replies, sent: seq<Post>, d: int) {
    exists v :: Drawn(replies, sent, d, v)
  }

  /** The ids of `ids` no reply in `sent` offered a link for, in order, repeats kept. */
  ghost function Unoffered(replies: Replies, sent: seq<Post>, ids: seq<int>): seq<int> {
    if ids == [] then []
    else (if OfferedIn(replies, sent, ids[0]) then [] else [ids[0]]) + Unoffered(replies, sent, ids[1..])
  }

  /** The shape of the POST log of `get_download_links_batch` with `chunkTries` tries per chunk and
      `singleTries` tries per id left without a link: every chunk of ten in order, then every id no
      reply of the chunked pass offered a link for alone, in order, each tried as often as the
      retry rule says. */
  ghost predicate LogOf(replies: Replies, ids: seq<int>, sent: seq<Post>, chunkTries: seq<nat>, singleTries: seq<nat>) {
    exists first :: ChunkLog(replies, ids, chunkTries, first) &&
      SingleLog(replies, Unoffered(replies, first, ids), singleTries, first, sent)
  }

  /** The POST log has the shape `LogOf` describes for some tries. */
  ghost predicate LogShaped(replies: Replies, ids: seq<int>, sent: seq<Post>) {
    exists chunkTries, singleTries :: LogOf(replies, ids, sent, chunkTries, singleTries)
  }

  /** The ids the fallback takes are those no reply of the chunked pass offered a link for, once
      the chunked pass kept a link for exactly those ids. */
  lemma {:induction false} MissingUnoffered(replies: Replies, first: seq<Post>, ids: seq<int>, chunked: map<int, Json>)
    requires forall k :: k in chunked <==> OfferedIn(replies, first, k)
    ensures Missing(ids, chunked) == Unoffered(replies, first, ids)
  {
    if ids != [] {
      MissingUnoffered(replies, first, ids[1..], chunked);
    }
  }

  /** The replies fix the whole POST log: two logs of the shape `LogOf` describes for the same ids
      are the same log. */
  lemma LogDetermined(replies: Replies, ids: seq<int>, sent1: seq<Post>, sent2: seq<Post>)
    requires LogShaped(replies, ids, sent1) && LogShaped(replies, ids, sent2)
    ensures sent1 == sent2
  {
    var ct1, st1 :| LogOf(replies, ids, sent1, ct1, st1);
    var ct2, st2 :| LogOf(replies, ids, sent2, ct2, st2);
    var first1 :| ChunkLog(replies, ids, ct1, first1) && SingleLog(replies, Unoffered(replies, first1, ids), st1, first1, sent1);
    var first2 :| ChunkLog(replies, ids, ct2, first2) && SingleLog(replies, Unoffered(replies, first2, ids), st2, first2, sent2);
    RunsUnique(replies, Chunks(ids), ct1, ct2, 0);
    assert first1 == first2;
    RunsUnique(replies, Singles(Unoffered(replies, first1, ids)), st1, st2, |first1|);
  }

  /** `post_batch`: POST one chunk until a response passes, a hard error comes back or the backoffs
      are spent. A list payload is returned; any other payload, a hard error or exhaustion give
      `None`. `sent` is the log of the POSTs made so far in this call; the new POSTs go at its end. */
  method PostBatch(replies: Replies, chunk: seq<int>, sent: seq<Post>)
    returns (payload: Option<seq<Json>>, sent': seq<Post>)
    ensures |sent| < |sent'| <= |sent| + MaxRetries + 1
    ensures sent'[..|sent|] == sent && forall n :: |sent| <= n < |sent'| ==> sent'[n] == Batch(chunk)
    // every try but the last was a retryable failure
    ensures forall n :: |sent| <= n < |sent'| - 1 ==> !replies(Batch(chunk), n).Body? && !HardError(replies(Batch(chunk), n))
    // the last one decides
    ensures var last := replies(Batch(chunk), |sent'| - 1);
      (payload.Some? <==> last.Body? && last.payload.JArr?) &&
      (payload.Some? ==> payload.value == last.payload.items) &&
      (!last.Body? && !HardError(last) ==> |sent'| == |sent| + MaxRetries + 1)
    ensures RetriedRun(replies, Batch(chunk), |sent|, |sent'| - |sent|)
  {
    var attempt: nat := 0;
    sent' := sent;
    while attempt <= MaxRetries
      invariant attempt <= MaxRetries + 1
      invariant |sent'| == |sent| + attempt && sent'[..|sent|] == sent
      invariant forall n :: |sent| <= n < |sent'| ==> sent'[n] == Batch(chunk)
      invariant forall n :: |sent| <= n < |sent'| ==> !replies(Batch(chunk), n).Body? && !HardError(replies(Batch(chunk), n))
    {
      var r := replies(Batch(chunk), |sent'|);
      sent' := sent' + [Batch(chunk)];
      if r.Body? {
        if r.payload.JArr? {
          return Some(r.payload.items), sent';
        }
        return None, sent';
      }
      if HardError(r) {
        return None, sent';
      }
      attempt := attempt + 1;
    }
    payload := None;
  }

  /** The position of the last entry of `items[..upto]` that gives `k` a truthy link, and that link
      is `v`: the entry a left-to-right pass over the list leaves in place. */
  predicate LastOffer(chunk: seq<int>, items: seq<Json>, upto: nat, k: int, v: Json)
    requires upto <= |items| <= |chunk|
  {
    exists i :: 0 <= i < upto && chunk[i] == k && LinkOf(items[i]) == v && Truthy(v) &&
      forall j :: i < j < upto && chunk[j] == k ==> !Truthy(LinkOf(items[j]))
  }

  /** The ids of `chunk` to which `items[..upto]` give a truthy link. */
  function OfferedTo(chunk: seq<int>, items: seq<Json>, upto: nat): (s: set<int>)
    requires upto <= |items| <= |chunk|
    ensures forall k :: k in s ==> k in chunk
  {
    set i | 0 <= i < upto && Truthy(LinkOf(items[i])) :: chunk[i]
  }

  /** The ids of `chunk` to which `items` give a truthy link. */
  function Offered(chunk: seq<int>, items: seq<Json>): (s: set<int>)
    requires |items| <= |chunk|
    ensures forall k :: k in s <==> exists i :: 0 <= i < |items| && chunk[i] == k && Truthy(LinkOf(items[i]))
  {
    OfferedTo(chunk, items, |items|)
  }

  /** One more entry read: its id joins the offered ids when its link is truthy, and the last offer
      of every other id stays where it was. */
  lemma OfferStep(chunk: seq<int>, items: seq<Json>, idx: nat)
    requires idx < |items| <= |chunk|
    ensures OfferedTo(chunk, items, idx + 1) ==
            OfferedTo(chunk, items, idx) + (if Truthy(LinkOf(items[idx])) then {chunk[idx]} else {})
    ensures Truthy(LinkOf(items[idx])) ==> LastOffer(chunk, items, idx + 1, chunk[idx], LinkOf(items[idx]))
    ensures forall k, v :: LastOffer(chunk, items, idx, k, v) && (k != chunk[idx] || !Truthy(LinkOf(items[idx])))
              ==> LastOffer(chunk, items, idx + 1, k, v)
  {
    forall k, v | LastOffer(chunk, items, idx, k, v) && (k != chunk[idx] || !Truthy(LinkOf(items[idx])))
      ensures LastOffer(chunk, items, idx + 1, k, v)
    {
      var i :| 0 <= i < idx && chunk[i] == k && LinkOf(items[i]) == v && Truthy(v) &&
        forall j :: i < j < idx && chunk[j] == k ==> !Truthy(LinkOf(items[j]));
      assert forall j :: i < j < idx + 1 && chunk[j] == k ==> !Truthy(LinkOf(items[j]));
    }
  }

  /** The chunk loop over one list payload: each entry with a truthy link sets the link of the id
      at the same position of the chunk, later entries overriding earlier ones. */
  method TakeLinks(out: map<int, Json>, chunk: seq<int>, items: seq<Json>) returns (out': map<int, Json>)
    requires |items| <= |chunk|
    requires forall i :: 0 <= i < |items| ==> items[i].JObj? || !Truthy(items[i])
    ensures out'.Keys == out.Keys + Offered(chunk, items)
    ensures forall k :: k in out' && k !in Offered(chunk, items) ==> out'[k] == out[k]
    ensures forall k :: k in Offered(chunk, items) ==> LastOffer(chunk, items, |items|, k, out'[k])
  {
    out' := out;
    for idx := 0 to |items|
      invariant out'.Keys == out.Keys + OfferedTo(chunk, items, idx)
      invariant forall k :: k in out' && k !in OfferedTo(chunk, items, idx) ==> out'[k] == out[k]
      invariant forall k :: k in OfferedTo(chunk, items, idx) ==> LastOffer(chunk, items, idx, k, out'[k])
    {
      OfferStep(chunk, items, idx);
      var link := LinkOf(items[idx]);
      if Truthy(link) {
        out' := out'[chunk[idx] := link];
      }
    }
  }

  /** The single-id fallback's reading of a reply: the link of the list's first entry, when the
      reply is a non-empty list whose first entry is an object with a truthy link. */
  function SingleLink(r: PostResult): (l: Option<Json>)
    ensures l.Some? ==> Truthy(l.value)
  {
    if r.Body? && r.payload.JArr? && r.payload.items != [] && Truthy(LinkOf(r.payload.items[0]))
    then Some(LinkOf(r.payload.items[0]))
    else None
  }

  /** A link the fallback reads for `d` is one the reply offers for `d`. */
  lemma SingleLinkOffers(d: int, r: PostResult)
    requires SingleLink(r).Some?
    ensures Offers(Single(d), r, d, SingleLink(r).value)
  {
    assert PostIds(Single(d))[0] == d;
  }

  /** A reply to a single-id request offers a link only for that id, and only the link the
      fallback reads. */
  lemma SingleOffersOnly(d: int, r: PostResult)
    ensures forall k, v :: Offers(Single(d), r, k, v) ==> k == d && SingleLink(r) == Some(v)
  {
    forall k, v | Offers(Single(d), r, k, v)
      ensures k == d && SingleLink(r) == Some(v)
    {
      var i :| 0 <= i < |r.payload.items| && i < |PostIds(Single(d))| && PostIds(Single(d))[i] == k
               && LinkOf(r.payload.items[i]) == v;
      assert i == 0;
    }
  }

  /** One id of the fallback: POST it alone until a reply carries a link, a hard error comes back
      or the backoffs are spent. A reply without a link is backed off from like a failure. */
  method FetchOne(replies: Replies, d: int, sent: seq<Post>)
    returns (link: Option<Json>, sent': seq<Post>)
    ensures |sent| < |sent'| <= |sent| + MaxRetries + 1
    ensures sent'[..|sent|] == sent && forall n :: |sent| <= n < |sent'| ==> sent'[n] == Single(d)
    ensures forall n :: |sent| <= n < |sent'| - 1 ==>
              SingleLink(replies(Single(d), n)).None? && !HardError(replies(Single(d), n))
    ensures link == SingleLink(replies(Single(d), |sent'| - 1))
    ensures link.None? && !HardError(replies(Single(d), |sent'| - 1)) ==> |sent'| == |sent| + MaxRetries + 1
    ensures RetriedRun(replies, Single(d), |sent|, |sent'| - |sent|)
  {
    var attempt: nat := 0;
    sent' := sent;
    link := None;
    while attempt <= MaxRetries
      invariant attempt <= MaxRetries + 1
      invariant |sent'| == |sent| + attempt && sent'[..|sent|] == sent
      invariant forall n :: |sent| <= n < |sent'| ==> sent'[n] == Single(d)
      invariant forall n :: |sent| <= n < |sent'| ==>
                  SingleLink(replies(Single(d), n)).None? && !HardError(replies(Single(d), n))
    {
      var r := replies(Single(d), |sent'|);
      sent' := sent' + [Single(d)];
      if SingleLink(r).Some? {
        return SingleLink(r), sent';
      }
      if HardError(r) {
        return None, sent';
      }
      attempt := attempt + 1;
    }
  }

  /** A longer log that starts with `sent` keeps every link drawn from `sent` and every id sent. */
  lemma LogGrows(replies: Replies, sent: seq<Post>, sent': seq<Post>, out: map<int, Json>)
    requires |sent| <= |sent'| && sent'[..|sent|] == sent
    requires forall k :: k in out ==> Drawn(replies, sent, k, out[k])
    ensures forall k :: k in out ==> Drawn(replies, sent', k, out[k])
    ensures SentIds(sent) <= SentIds(sent')
  {
    forall k | k in out
      ensures Drawn(replies, sent', k, out[k])
    {
      DrawnKept(replies, sent, sent', k, out[k]);
    }
    forall d | d in SentIds(sent)
      ensures d in SentIds(sent')
    {
      var n :| 0 <= n < |sent| && d in PostIds(sent[n]);
      assert sent'[n] == sent[n];
    }
  }

  /** The link a list reply leaves in place for an id is drawn from the log that ends with it. */
  lemma LastOfferDrawn(replies: Replies, sent: seq<Post>, chunk: seq<int>, items: seq<Json>, k: int, v: Json)
    requires |sent| > 0 && sent[|sent| - 1] == Batch(chunk)
    requires replies(Batch(chunk), |sent| - 1) == Body(JArr(items)) && |items| <= |chunk|
    requires LastOffer(chunk, items, |items|, k, v)
    ensures Drawn(replies, sent, k, v)
  {
    var i :| 0 <= i < |items| && chunk[i] == k && LinkOf(items[i]) == v && Truthy(v) &&
      forall j :: i < j < |items| && chunk[j] == k ==> !Truthy(LinkOf(items[j]));
    assert Offers(sent[|sent| - 1], replies(sent[|sent| - 1], |sent| - 1), k, v);
  }

  /** The POSTs of one `PostBatch` call offer links only in their last reply, and only to ids whose
      entry in that reply's list has a truthy link; once those ids have links, the longer log is
      covered. */
  lemma ChunkCovers(replies: Replies, chunk: seq<int>, sent: seq<Post>, sent': seq<Post>, payload: Option<seq<Json>>,
                    out: map<int, Json>, out': map<int, Json>)
    requires |sent| < |sent'| && sent'[..|sent|] == sent
    requires forall n :: |sent| <= n < |sent'| ==> sent'[n] == Batch(chunk)
    requires forall n :: |sent| <= n < |sent'| - 1 ==> !replies(Batch(chunk), n).Body?
    requires var last := replies(Batch(chunk), |sent'| - 1);
      (payload.Some? <==> last.Body? && last.payload.JArr?) && (payload.Some? ==> payload.value == last.payload.items)
    requires Covers(replies, sent, out) && out.Keys <= out'.Keys
    requires payload.Some? && payload.value != [] ==>
               |payload.value| <= |chunk| && Offered(chunk, payload.value) <= out'.Keys
    ensures Covers(replies, sent', out')
  {
    forall n, k, v | 0 <= n < |sent'|
      ensures Offers(sent'[n], replies(sent'[n], n), k, v) ==> k in out'
    {
      if n < |sent| {
        assert sent'[n] == sent[n];
      } else {
        assert sent'[n] == Batch(chunk);
        if n == |sent'| - 1 && Offers(Batch(chunk), replies(Batch(chunk), n), k, v) {
          var items := replies(Batch(chunk), n).payload.items;
          var i :| 0 <= i < |items| && i < |chunk| && chunk[i] == k && LinkOf(items[i]) == v;
          assert k in Offered(chunk, payload.value);
        }
      }
    }
  }

  /** One iteration of the chunked pass: POST the chunk and take the links of a non-empty list
      payload. Every id a reply to the chunk offers a link for ends up with one. */
  method PostChunk(replies: Replies, chunk: seq<int>, out: map<int, Json>, sent: seq<Post>)
    returns (out': map<int, Json>, sent': seq<Post>)
    requires BatchesShaped(replies)
    requires forall k :: k in out ==> Drawn(replies, sent, k, out[k])
    requires Covers(replies, sent, out)
    ensures |sent| < |sent'| <= |sent| + MaxRetries + 1 && sent'[..|sent|] == sent
    ensures forall n :: |sent| <= n < |sent'| ==> sent'[n] == Batch(chunk)
    ensures RetriedRun(replies, Batch(chunk), |sent|, |sent'| - |sent|)
    ensures forall k :: k in out' ==> (k in out || k in chunk) && Drawn(replies, sent', k, out'[k])
    ensures out.Keys <= out'.Keys && Covers(replies, sent', out')
    ensures forall j :: 0 <= j < |chunk| ==> chunk[j] in SentIds(sent')
  {
    var payload;
    payload, sent' := PostBatch(replies, chunk, sent);
    LogGrows(replies, sent, sent', out);
    assert sent'[|sent'| - 1] == Batch(chunk) && PostIds(Batch(chunk)) == chunk;
    out' := out;
    if payload.Some? && payload.value != [] {
      var items := payload.value;
      assert Shaped(chunk, replies(Batch(chunk), |sent'| - 1));
      out' := TakeLinks(out, chunk, items);
      forall k | k in out'
        ensures Drawn(replies, sent', k, out'[k])
      {
        if k in Offered(chunk, items) {
          LastOfferDrawn(replies, sent', chunk, items, k, out'[k]);
        }
      }
    }
    ChunkCovers(replies, chunk, sent, sent', payload, out, out');
  }

  /** Once a slice is sent, every id up to its end has been sent, and its ids are ids of the whole. */
  lemma SliceCovered(ids: seq<int>, i: nat, end: nat, sentIds: set<int>)
    requires i <= end <= |ids|
    requires forall j :: 0 <= j < i ==> ids[j] in sentIds
    requires forall j :: 0 <= j < |ids[i..end]| ==> ids[i..end][j] in sentIds
    ensures forall j :: 0 <= j < end ==> ids[j] in sentIds
    ensures forall k :: k in ids[i..end] ==> k in ids
  {
    forall j | i <= j < end
      ensures ids[j] in sentIds
    {
      assert ids[j] == ids[i..end][j - i];
    }
  }

  /** While ids are left, the next chunk starts at `10 * c` and is the `c`-th of `Chunks`. */
  lemma ChunkNext(ids: seq<int>, c: nat)
    requires ChunkSize * c < |ids|
    ensures c < NumChunks(|ids|)
    ensures Chunks(ids)[..c + 1] == Chunks(ids)[..c] + [Batch(ChunkAt(ids, c))]
  {
    assert Chunks(ids)[c] == Batch(ChunkAt(ids, c));
  }

  /** Once the ids are used up after `c` chunks, there were `c` chunks. */
  lemma ChunksDone(n: nat, c: nat)
    requires n <= ChunkSize * c && (c == 0 || ChunkSize * c < n + ChunkSize)
    ensures NumChunks(n) == c
  {
  }

  /** The log after `c` chunks: the first `c` chunks, in order, each POSTed as often as the retry rule says. */
  ghost predicate ChunkedSoFar(replies: Replies, ids: seq<int>, c: nat, tries: seq<nat>, sent: seq<Post>) {
    |tries| == c && c <= NumChunks(|ids|) && Runs(replies, Chunks(ids)[..c], tries, 0) && sent == Repeated(Chunks(ids)[..c], tries)
  }

  /** POSTing the next chunk extends the chunk log by that chunk. */
  lemma ChunkSentStep(ids: seq<int>, c: nat, tries: seq<nat>, sent: seq<Post>, sent': seq<Post>)
    requires |tries| == c && ChunkSize * c < |ids| && sent == Repeated(Chunks(ids)[..c], tries)
    requires |sent| < |sent'| && sent'[..|sent|] == sent
    requires forall n :: |sent| <= n < |sent'| ==> sent'[n] == Batch(ChunkAt(ids, c))
    ensures c + 1 <= NumChunks(|ids|)
    ensures sent' == Repeated(Chunks(ids)[..c + 1], tries + [|sent'| - |sent|])
  {
    ChunkNext(ids, c);
    ExtendedBy(sent, sent', Batch(ChunkAt(ids, c)));
    RepeatedSnoc(Chunks(ids)[..c], tries, Batch(ChunkAt(ids, c)), |sent'| - |sent|);
  }

  /** POSTing the next chunk as the retry rule says adds its run to the chunk runs. */
  lemma ChunkRunsStep(replies: Replies, ids: seq<int>, c: nat, tries: seq<nat>, t: nat)
    requires |tries| == c && ChunkSize * c < |ids| && Runs(replies, Chunks(ids)[..c], tries, 0)
    requires RetriedRun(replies, Batch(ChunkAt(ids, c)), Sum(tries), t)
    ensures Runs(replies, Chunks(ids)[..c + 1], tries + [t], 0)
  {
    ChunkNext(ids, c);
    RunsSnoc(replies, Chunks(ids)[..c], tries, 0, Batch(ChunkAt(ids, c)), t);
  }

  /** POSTing the next chunk as the retry rule says extends the chunk log by that chunk. */
  lemma ChunkLogStep(replies: Replies, ids: seq<int>, c: nat, tries: seq<nat>, sent: seq<Post>, sent': seq<Post>)
    requires ChunkedSoFar(replies, ids, c, tries, sent) && ChunkSize * c < |ids|
    requires |sent| < |sent'| && sent'[..|sent|] == sent
    requires forall n :: |sent| <= n < |sent'| ==> sent'[n] == Batch(ChunkAt(ids, c))
    requires RetriedRun(replies, Batch(ChunkAt(ids, c)), |sent|, |sent'| - |sent|)
    ensures ChunkedSoFar(replies, ids, c + 1, tries + [|sent'| - |sent|], sent')
  {
    ChunkSentStep(ids, c, tries, sent, sent');
    ChunkRunsStep(replies, ids, c, tries, |sent'| - |sent|);
  }

  /** After the last chunk the log is the whole chunk log. */
  lemma ChunkLogDone(replies: Replies, ids: seq<int>, c: nat, tries: seq<nat>, sent: seq<Post>)
    requires ChunkedSoFar(replies, ids, c, tries, sent)
    requires |ids| <= ChunkSize * c && (c == 0 || ChunkSize * c < |ids| + ChunkSize)
    ensures ChunkLog(replies, ids, tries, sent)
  {
    ChunksDone(|ids|, c);
    assert Chunks(ids)[..c] == Chunks(ids);
  }

  /** What the chunked pass keeps after `c` chunks: at most six POSTs per chunk, every link belongs
      to a requested id and was drawn from a reply, every offered link is kept, and the ids of
      the first `c` chunks were sent. */
  ghost predicate ChunkPassSoFar(replies: Replies, ids: seq<int>, c: nat, out: map<int, Json>, sent: seq<Post>) {
    && (c == 0 || ChunkSize * c < |ids| + ChunkSize)
    && |sent| <= (MaxRetries + 1) * c
    && (forall k :: k in out ==> k in ids && Drawn(replies, sent, k, out[k]))
    && Covers(replies, sent, out)
    && (forall j :: 0 <= j < |ids| && j < ChunkSize * c ==> ids[j] in SentIds(sent))
  }

  /** One round of the chunked pass: the `c`-th chunk POSTed through `PostBatch` and its links
      taken. */
  method ChunkRound(replies: Replies, ids: seq<int>, c: nat, out: map<int, Json>, sent: seq<Post>)
    returns (out': map<int, Json>, sent': seq<Post>)
    requires BatchesShaped(replies)
    requires ChunkSize * c < |ids| && ChunkPassSoFar(replies, ids, c, out, sent)
    ensures ChunkPassSoFar(replies, ids, c + 1, out', sent')
    ensures |sent| < |sent'| && sent'[..|sent|] == sent
    ensures forall n :: |sent| <= n < |sent'| ==> sent'[n] == Batch(ChunkAt(ids, c))
    ensures RetriedRun(replies, Batch(ChunkAt(ids, c)), |sent|, |sent'| - |sent|)
  {
    var i := ChunkSize * c;
    var end := if i + ChunkSize < |ids| then i + ChunkSize else |ids|;
    var chunk := ids[i..end];
    assert chunk == ChunkAt(ids, c);
    out', sent' := PostChunk(replies, chunk, out, sent);
    LogGrows(replies, sent, sent', map[]);
    SliceCovered(ids, i, end, SentIds(sent'));
  }

  /** The chunked pass: consecutive slices of `ChunkSize` ids, each POSTed through `PostBatch`, and
      the links of every non-empty list payload taken. */
  method ChunkPhase(replies: Replies, ids: seq<int>) returns (out: map<int, Json>, sent: seq<Post>, ghost tries: seq<nat>)
    requires BatchesShaped(replies)
    ensures forall k :: k in out ==> k in ids && Drawn(replies, sent, k, out[k])
    ensures Covers(replies, sent, out)
    ensures forall j :: 0 <= j < |ids| ==> ids[j] in SentIds(sent)
    ensures ChunkSize * |sent| <= (MaxRetries + 1) * (|ids| + ChunkSize - 1)
    // the chunks of ten, in order, each POSTed as often as the retry rule says
    ensures ChunkLog(replies, ids, tries, sent)
  {
    out := map[];
    sent := [];
    tries := [];
    assert Chunks(ids)[..0] == [];
    var i := 0;
    var chunks: nat := 0;
    while i < |ids|
      invariant i == ChunkSize * chunks
      invariant ChunkPassSoFar(replies, ids, chunks, out, sent)
      invariant ChunkedSoFar(replies, ids, chunks, tries, sent)
    {
      var out', sent' := ChunkRound(replies, ids, chunks, out, sent);
      ChunkLogStep(replies, ids, chunks, tries, sent, sent');
      tries := tries + [|sent'| - |sent|];
      out, sent := out', sent';
      i := i + ChunkSize;
      chunks := chunks + 1;
    }
    ChunkLogDone(replies, ids, chunks, tries, sent);
    ChunkPassDone(replies, ids, chunks, out, sent);
  }

  /** Once the ids are used up, the chunked pass made at most six POSTs per chunk of ten and sent
      every id. */
  lemma ChunkPassDone(replies: Replies, ids: seq<int>, c: nat, out: map<int, Json>, sent: seq<Post>)
    requires ChunkPassSoFar(replies, ids, c, out, sent) && |ids| <= ChunkSize * c
    ensures forall j :: 0 <= j < |ids| ==> ids[j] in SentIds(sent)
    ensures ChunkSize * |sent| <= (MaxRetries + 1) * (|ids| + ChunkSize - 1)
  {
  }

  /** `[d for d in ids if d not in out]`: the ids still without a link, in order, repeats kept. */
  function Missing(ids: seq<int>, out: map<int, Json>): (m: seq<int>)
    ensures |m| <= |ids|
    ensures forall d :: d in m <==> d in ids && d !in out
  {
    if ids == [] then []
    else (if ids[0] in out then [] else [ids[0]]) + Missing(ids[1..], out)
  }

  /** The POSTs of one `FetchOne` call offer a link only for its id, and only in the reply it reads
      the link from; once that link is recorded, the longer log is covered. */
  lemma FetchCovers(replies: Replies, d: int, sent: seq<Post>, sent': seq<Post>, link: Option<Json>,
                    out: map<int, Json>, out': map<int, Json>)
    requires |sent| < |sent'| && sent'[..|sent|] == sent
    requires forall n :: |sent| <= n < |sent'| ==> sent'[n] == Single(d)
    requires forall n :: |sent| <= n < |sent'| - 1 ==> SingleLink(replies(Single(d), n)).None?
    requires link == SingleLink(replies(Single(d), |sent'| - 1))
    requires Covers(replies, sent, out) && out.Keys <= out'.Keys
    requires link.Some? ==> d in out'
    ensures Covers(replies, sent', out')
  {
    forall n, k, v | 0 <= n < |sent'|
      ensures Offers(sent'[n], replies(sent'[n], n), k, v) ==> k in out'
    {
      if n < |sent| {
        assert sent'[n] == sent[n];
      } else {
        assert sent'[n] == Single(d);
        SingleOffersOnly(d, replies(Single(d), n));
      }
    }
  }

  /** The log after `t` ids of the fallback: `sent`, then those ids alone, in order, each POSTed
      as often as the retry rule says. */
  ghost predicate SinglesSoFar(replies: Replies, missing: seq<int>, t: nat, tries: seq<nat>, sent: seq<Post>, sent': seq<Post>) {
    |tries| == t <= |missing| && Runs(replies, Singles(missing)[..t], tries, |sent|) &&
    sent' == sent + Repeated(Singles(missing)[..t], tries)
  }

  /** POSTing the next id alone as the retry rule says extends the fallback log by that id. */
  lemma SingleLogStep(replies: Replies, missing: seq<int>, t: nat, tries: seq<nat>, sent: seq<Post>, mid: seq<Post>, next: seq<Post>)
    requires SinglesSoFar(replies, missing, t, tries, sent, mid) && t < |missing|
    requires |mid| < |next| <= |mid| + MaxRetries + 1 && next[..|mid|] == mid
    requires forall n :: |mid| <= n < |next| ==> next[n] == Single(missing[t])
    requires RetriedRun(replies, Single(missing[t]), |mid|, |next| - |mid|)
    ensures SinglesSoFar(replies, missing, t + 1, tries + [|next| - |mid|], sent, next)
  {
    var posts, p, k := Singles(missing)[..t], Single(missing[t]), |next| - |mid|;
    assert Singles(missing)[t] == p;
    assert Singles(missing)[..t + 1] == posts + [p];
    assert |mid| == |sent| + Sum(tries);
    ExtendedBy(mid, next, p);
    RepeatedSnoc(posts, tries, p, k);
    RunsSnoc(replies, posts, tries, |sent|, p, k);
    assert next == sent + Repeated(posts + [p], tries + [k]);
    assert Runs(replies, posts + [p], tries + [k], |sent|);
    assert |tries + [k]| == t + 1 <= |missing|;
    assert Runs(replies, Singles(missing)[..t + 1], tries + [k], |sent|);
    assert next == sent + Repeated(Singles(missing)[..t + 1], tries + [k]);
  }

  /** The per-id fallback: every id of `missing`, in order, through `FetchOne`, a link found being
      recorded under its id. */
  method FallbackPhase(replies: Replies, missing: seq<int>, out: map<int, Json>, sent: seq<Post>)
    returns (out': map<int, Json>, sent': seq<Post>, ghost tries: seq<nat>)
    requires forall k :: k in out ==> Drawn(replies, sent, k, out[k])
    requires Covers(replies, sent, out)
    ensures |sent| <= |sent'| <= |sent| + (MaxRetries + 1) * |missing| && sent'[..|sent|] == sent
    ensures forall k :: k in out' ==> (k in out || k in missing) && Drawn(replies, sent', k, out'[k])
    ensures forall k :: k in out ==> k in out'
    // a link some reply of the fallback offers is recorded
    ensures Covers(replies, sent', out')
    // every id of the fallback was asked for on its own
    ensures forall d :: d in missing ==> Single(d) in sent'
    // the ids alone, in order, each POSTed as often as the retry rule says
    ensures SingleLog(replies, missing, tries, sent, sent')
  {
    out' := out;
    sent' := sent;
    tries := [];
    assert Singles(missing)[..0] == [];
    for t := 0 to |missing|
      invariant FallbackSoFar(replies, missing, out, sent, t, out', sent')
      invariant SinglesSoFar(replies, missing, t, tries, sent, sent')
    {
      var next;
      out', next := FallbackNext(replies, missing, out, sent, t, out', sent');
      SingleLogStep(replies, missing, t, tries, sent, sent', next);
      tries := tries + [|next| - |sent'|];
      sent' := next;
    }
    assert Singles(missing)[..|missing|] == Singles(missing);
  }

  /** What the fallback loop keeps after `t` ids: the log and the links only grow, every link is
      one some reply offered for a requested id, and each of the first `t` ids was POSTed alone. */
  ghost predicate FallbackSoFar(replies: Replies, missing: seq<int>, out: map<int, Json>, sent: seq<Post>,
                                t: nat, out': map<int, Json>, sent': seq<Post>)
  {
    && t <= |missing|
    && |sent| <= |sent'| <= |sent| + (MaxRetries + 1) * t && sent'[..|sent|] == sent
    && (forall k :: k in out' ==> (k in out || k in missing) && Drawn(replies, sent', k, out'[k]))
    && (forall k :: k in out ==> k in out')
    && Covers(replies, sent', out')
    && (forall j :: 0 <= j < t ==> Single(missing[j]) in sent')
  }

  /** One round of the fallback: the next id POSTed alone as the retry rule says, its link recorded if
      one came back. */
  method FallbackNext(replies: Replies, missing: seq<int>, out: map<int, Json>, sent: seq<Post>,
                      t: nat, cur: map<int, Json>, log: seq<Post>)
    returns (cur': map<int, Json>, log': seq<Post>)
    requires t < |missing| && FallbackSoFar(replies, missing, out, sent, t, cur, log)
    ensures FallbackSoFar(replies, missing, out, sent, t + 1, cur', log')
    ensures |log| < |log'| <= |log| + MaxRetries + 1 && log'[..|log|] == log
    ensures forall n :: |log| <= n < |log'| ==> log'[n] == Single(missing[t])
    ensures RetriedRun(replies, Single(missing[t]), |log|, |log'| - |log|)
  {
    var d := missing[t];
    var link;
    link, log' := FetchOne(replies, d, log);
    LogGrows(replies, log, log', cur);
    assert log'[|log'| - 1] == Single(d);
    cur' := cur;
    if link.Some? {
      SingleLinkOffers(d, replies(Single(d), |log'| - 1));
      cur' := cur'[d := link.value];
    }
    FetchCovers(replies, d, log, log', link, cur, cur');
    forall k | k in cur'
      ensures (k in out || k in missing) && Drawn(replies, log', k, cur'[k])
    {
      if link.Some? && k == d {
        assert Offers(log'[|log'| - 1], replies(log'[|log'| - 1], |log'| - 1), k, cur'[k]);
      }
    }
    PrefixKept(sent, log, log', missing, t);
  }

  /** Extending the log keeps its original prefix and every single-id POST made so far. */
  lemma PrefixKept(sent: seq<Post>, mid: seq<Post>, next: seq<Post>, missing: seq<int>, t: nat)
    requires t < |missing|
    requires |sent| <= |mid| <= |next| && mid[..|sent|] == sent && next[..|mid|] == mid
    requires forall j :: 0 <= j < t ==> Single(missing[j]) in mid
    requires next != [] && next[|next| - 1] == Single(missing[t])
    ensures next[..|sent|] == sent
    ensures forall j :: 0 <= j < t + 1 ==> Single(missing[j]) in next
  {
    assert next[..|sent|] == mid[..|mid|][..|sent|];
    forall j | 0 <= j < t
      ensures Single(missing[j]) in next
    {
      var n :| 0 <= n < |mid| && mid[n] == Single(missing[j]);
      assert next[n] == mid[n];
    }
  }

  /** A map holding exactly links drawn from a log that covers it has as keys exactly the ids
      some POST of the log was offered a link for. */
  lemma ChunkedLinks(replies: Replies, sent: seq<Post>, out: map<int, Json>)
    requires forall k :: k in out ==> Drawn(replies, sent, k, out[k])
    requires Covers(replies, sent, out)
    ensures forall k :: k in out <==> exists v :: Drawn(replies, sent, k, v)
  {
    forall k | exists v :: Drawn(replies, sent, k, v)
      ensures k in out
    {
      var v :| Drawn(replies, sent, k, v);
      var n :| 0 <= n < |sent| && Offers(sent[n], replies(sent[n], n), k, v);
    }
  }

  /** No ids make no POSTs. */
  lemma NoIdsNoLog(replies: Replies)
    ensures LogShaped(replies, [], [])
  {
    assert Chunks([]) == [] && Unoffered(replies, [], []) == [];
    assert ChunkLog(replies, [], [], []) && SingleLog(replies, [], [], [], []);
    assert LogOf(replies, [], [], [], []);
  }

  /** The chunk log followed by the fallback log for the ids it left without a link has the shape
      of `LogShaped`. */
  lemma LogShapedFrom(replies: Replies, ids: seq<int>, first: seq<Post>, chunkTries: seq<nat>, chunked: map<int, Json>,
                      singleTries: seq<nat>, sent: seq<Post>)
    requires forall k :: k in chunked ==> Drawn(replies, first, k, chunked[k])
    requires Covers(replies, first, chunked)
    requires ChunkLog(replies, ids, chunkTries, first)
    requires SingleLog(replies, Missing(ids, chunked), singleTries, first, sent)
    ensures LogShaped(replies, ids, sent)
  {
    ChunkedLinks(replies, first, chunked);
    MissingUnoffered(replies, first, ids, chunked);
    assert LogOf(replies, ids, sent, chunkTries, singleTries);
  }

  /** The links and log after both phases: every link is truthy, every offered link is kept, and
      every id went out in some request. */
  lemma BatchOutcome(replies: Replies, ids: seq<int>, first: seq<Post>, sent: seq<Post>, out: map<int, Json>)
    requires |first| <= |sent| && sent[..|first|] == first
    requires forall j :: 0 <= j < |ids| ==> ids[j] in SentIds(first)
    requires forall k :: k in out ==> Drawn(replies, sent, k, out[k])
    requires Covers(replies, sent, out)
    ensures forall k :: k in out ==> Truthy(out[k])
    ensures forall k, v :: Drawn(replies, sent, k, v) ==> k in out
    ensures forall d :: d in ids ==> d in SentIds(sent)
  {
    LogGrows(replies, first, sent, map[]);
    forall k | k in out
      ensures Truthy(out[k])
    {
      var n :| 0 <= n < |sent| && Offers(sent[n], replies(sent[n], n), k, out[k]);
    }
    forall k, v | Drawn(replies, sent, k, v)
      ensures k in out
    {
      var n :| 0 <= n < |sent| && Offers(sent[n], replies(sent[n], n), k, v);
    }
    forall d | d in ids
      ensures d in SentIds(sent)
    {
      var j :| 0 <= j < |ids| && ids[j] == d;
    }
  }

  /** What `get_download_links_batch` returns for `ids`, given the log `sent` of its POSTs: a link
      for exactly the requested ids some reply offered one, each link one a reply carried for that
      id; every id requested, and an id left without a link asked for on its own too; the log is
      the chunks of ten, then the ids they left without a link, alone. */
  ghost predicate LinksFetched(replies: Replies, ids: seq<int>, out: map<int, Json>, sent: seq<Post>) {
    && (forall k :: k in out ==> k in ids && Truthy(out[k]) && Drawn(replies, sent, k, out[k]))
    && (forall k, v :: Drawn(replies, sent, k, v) ==> k in out)
    && (forall d :: d in ids ==> d in SentIds(sent))
    && (forall d :: d in ids && d !in out ==> Single(d) in sent)
    && LogShaped(replies, ids, sent)
  }

  /** `get_download_links_batch`: the chunked pass, then the per-id fallback for the ids it left
      without a link. `sent` is the log of the POSTs made, in order. */
  method GetDownloadLinksBatch(replies: Replies, ids: seq<int>) returns (out: map<int, Json>, sent: seq<Post>)
    requires BatchesShaped(replies)
    ensures ids == [] ==> out == map[] && sent == []
    // only requested ids get a link, and every link is one some reply carried for that id
    ensures forall k :: k in out ==> k in ids && Truthy(out[k]) && Drawn(replies, sent, k, out[k])
    // every id some reply offered a link for gets one
    ensures forall k, v :: Drawn(replies, sent, k, v) ==> k in out
    // every id is requested in some batch, and an id left without a link was also asked for alone
    ensures forall d :: d in ids ==> d in SentIds(sent)
    ensures forall d :: d in ids && d !in out ==> Single(d) in sent
    // at most six POSTs per chunk of ten and per missing id
    ensures ChunkSize * |sent| <= (MaxRetries + 1) * (|ids| + ChunkSize - 1 + ChunkSize * |ids|)
    // the chunks of ten in order, then the ids the chunks left without a link alone, in order
    ensures LogShaped(replies, ids, sent)
  {
    if ids == [] {
      NoIdsNoLog(replies);
      return map[], [];
    }
    var chunked, first, chunkTries := ChunkPhase(replies, ids);
    var missing := Missing(ids, chunked);
    ghost var singleTries;
    out, sent, singleTries := FallbackPhase(replies, missing, chunked, first);
    BatchOutcome(replies, ids, first, sent, out);
    LogShapedFrom(replies, ids, first, chunkTries, chunked, singleTries, sent);
  }
}
