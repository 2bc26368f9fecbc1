/** Discovering a project's folder tree: the paginated root and children listings, the breadth-first
    walk of `enumerate_all_folders`, and `fetch_complete_folder_structure` with its fallback through
    the documents' folder ids. */
module Discovery {
  import opened Wrappers
  import opened Text
  import opened Names
  import opened Remote
  import opened Resolver

  /** One entry of a folder listing: its `folderId.native` (0 when that is absent or falsy) and its
      `name` field (`None` when absent or null). */
  datatype ListItem = ListItem(id: int, name: Option<string>)

  /** One page of a listing, or a request that failed once the request layer gave up. */
  datatype Page = PageOk(items: seq<ListItem>, hasMore: bool) | PageFailed

  /** The pages a paginated listing returns, by offset. A page past the end reads as a failed request. */
  type Listing = seq<Page>

  /** The children listing of every folder; a folder missing from the map has a failing listing. */
  type ChildListings = map<int, Listing>

  function PagesOf(ch: ChildListings, f: int): Listing {
    if f in ch then ch[f] else []
  }

  /** The items a listing loop reads: pages in order until a failed request, a page without
      `hasMore`, or, when `stopOnEmpty`, an empty page. */
  function ReadItems(l: Listing, k: nat, stopOnEmpty: bool): (r: seq<ListItem>)
    ensures k >= |l| ==> r == []
    decreases |l| - k
  {
    if k >= |l| then []
    else
      match l[k]
      case PageFailed => []
      case PageOk(items, more) =>
        if stopOnEmpty && items == [] then []
        else items + (if more then ReadItems(l, k + 1, stopOnEmpty) else [])
  }

  /** The non-zero ids of the items, in order: the entries the loops do not skip. */
  function Ids(items: seq<ListItem>): (r: seq<int>)
    ensures forall i :: 0 <= i < |r| ==> r[i] != 0
  {
    if items == [] then []
    else Ids(items[..|items| - 1]) + (if items[|items| - 1].id != 0 then [items[|items| - 1].id] else [])
  }

  lemma {:induction false} IdsAppend(a: seq<ListItem>, b: seq<ListItem>)
    ensures Ids(a + b) == Ids(a) + Ids(b)
    decreases |b|
  {
    if b != [] {
      var init := b[..|b| - 1];
      assert (a + b)[..|a + b| - 1] == a + init;
      assert (a + b)[|a + b| - 1] == b[|b| - 1];
      IdsAppend(a, init);
    } else {
      assert a + b == a;
    }
  }

  lemma IdsSnoc(a: seq<ListItem>, i: nat)
    requires i < |a|
    ensures Ids(a[..i + 1]) == Ids(a[..i]) + (if a[i].id != 0 then [a[i].id] else [])
  {
    assert a[..i + 1][..i] == a[..i];
  }

  /** The folders a listing names, in order. */
  function ListedIds(l: Listing, stopOnEmpty: bool): seq<int> {
    Ids(ReadItems(l, 0, stopOnEmpty))
  }

  /** Reading page `k` of a listing that got that far: its items, then the rest. */
  lemma ReadStep(l: Listing, k: nat, stopOnEmpty: bool)
    requires k < |l| && l[k].PageOk? && !(stopOnEmpty && l[k].items == [])
    ensures Ids(ReadItems(l, k, stopOnEmpty))
            == Ids(l[k].items) + (if l[k].hasMore then Ids(ReadItems(l, k + 1, stopOnEmpty)) else [])
  {
    IdsAppend(l[k].items, if l[k].hasMore then ReadItems(l, k + 1, stopOnEmpty) else []);
  }

  /** The listing loop's bookkeeping when it stops at page `k`: everything has been read. */
  lemma ReadStop(l: Listing, k: nat, stopOnEmpty: bool, seen: seq<int>, total: seq<int>)
    requires seen + Ids(ReadItems(l, k, stopOnEmpty)) == total
    requires k >= |l| || l[k].PageFailed? || (stopOnEmpty && l[k].items == [])
    ensures seen == total
  {
    assert ReadItems(l, k, stopOnEmpty) == [];
    assert seen + [] == seen;
  }

  /** The listing loop's bookkeeping when it reads page `k`. */
  lemma ReadAdvance(l: Listing, k: nat, stopOnEmpty: bool, seen: seq<int>, total: seq<int>)
    requires seen + Ids(ReadItems(l, k, stopOnEmpty)) == total
    requires k < |l| && l[k].PageOk? && !(stopOnEmpty && l[k].items == [])
    ensures l[k].hasMore ==> (seen + Ids(l[k].items)) + Ids(ReadItems(l, k + 1, stopOnEmpty)) == total
    ensures !l[k].hasMore ==> seen + Ids(l[k].items) == total
  {
    ReadStep(l, k, stopOnEmpty);
    Concat3(seen, Ids(l[k].items), if l[k].hasMore then Ids(ReadItems(l, k + 1, stopOnEmpty)) else []);
  }

  /** The inner loop over one page's items: the non-zero ids, appended in order. */
  method CollectIds(items: seq<ListItem>, acc: seq<int>) returns (r: seq<int>)
    ensures r == acc + Ids(items)
  {
    r := acc;
    for i := 0 to |items|
      invariant r == acc + Ids(items[..i])
    {
      IdsSnoc(items, i);
      if items[i].id != 0 {
        r := r + [items[i].id];
      }
    }
    assert items[..|items|] == items;
  }

  /** One round of the root paging loop: stop at a missing or failed page, else collect the page's
      ids and go on while it says `hasMore`. */
  method RootRound(pages: Listing, k: nat, roots: seq<int>, ghost total: seq<int>)
    returns (k': nat, more: bool, roots': seq<int>)
    requires k <= |pages| && roots + Ids(ReadItems(pages, k, false)) == total
    ensures k <= k' <= |pages| && (more ==> k < k')
    ensures more ==> roots' + Ids(ReadItems(pages, k', false)) == total
    ensures !more ==> roots' == total
  {
    if k == |pages| || pages[k].PageFailed? {
      ReadStop(pages, k, false, roots, total);
      return k, false, roots;
    }
    ReadAdvance(pages, k, false, roots, total);
    roots' := CollectIds(pages[k].items, roots);
    more := pages[k].hasMore;
    k' := if more then k + 1 else k;
  }

  /** The paging loop of `_fetch_root_folders`, and of the root listing in
      `fetch_complete_folder_structure`: every non-zero id on the pages read, in order. */
  method FetchRootFolders(pages: Listing) returns (roots: seq<int>)
    ensures roots == ListedIds(pages, false)
    ensures forall i :: 0 <= i < |roots| ==> roots[i] != 0
  {
    roots := [];
    ghost var total := ListedIds(pages, false);
    EmptyPrefix(total);
    var k := 0;
    var more := true;
    while more
      invariant k <= |pages|
      invariant more ==> roots + Ids(ReadItems(pages, k, false)) == total
      invariant !more ==> roots == total
      decreases |pages| - k, more
    {
      k, more, roots := RootRound(pages, k, roots, total);
    }
  }

  /** The children a folder's listing names, as `enumerate_all_folders` reads them. */
  function Children(ch: ChildListings, f: int): seq<int> {
    ListedIds(PagesOf(ch, f), true)
  }

  /** Every listed child of a folder in `universe` is in `universe`: the tree the walk can reach is
      finite. */
  ghost predicate Closed(ch: ChildListings, universe: set<int>) {
    forall f, c :: f in universe && c in Elems(Children(ch, f)) ==> c in universe
  }

  /** Every path in `paths` is a cached path or the fallback. */
  ghost predicate PathsFrom(paths: set<string>, cache: map<int, string>, fallback: string) {
    forall p :: p in paths ==> p == fallback || p in ValuesOf(cache)
  }

  predicate WellFormedPaths(paths: set<string>) {
    forall p :: p in paths ==> WellFormedPath(p)
  }

  /** The fallback every listing loop resolves with is already a clean segment. */
  lemma DocumentsIsTidy()
    ensures Sanitize("Documents") == "Documents"
  {
    var d := "Documents";
    assert forall i :: 0 <= i < |d| ==> !IsIllegal(d[i]) && !IsSpace(d[i]);
    SanitizeKeepsTidy(d);
  }

  lemma PathsFromDocuments(paths: set<string>, cache: map<int, string>)
    requires PathsFrom(paths, cache, Sanitize("Documents"))
    ensures PathsFrom(paths, cache, "Documents")
  {
    DocumentsIsTidy();
  }

  /** `resolve_folder_path` on a listed folder, without strictness and with a fallback `sanitize`
      keeps as it is: a well-formed path that is either the one now cached for it or the fallback
      itself; fetched folders are always cached. */
  method ResolveListed(api: FolderApi, r: FolderResolver, cid: int, fallback: string, ghost rank: int -> nat)
    returns (path: string)
    requires Ranked(api, rank) && WellFormedCache(r.cache) && cid != 0
    modifies r
    ensures WellFormedPath(path) && WellFormedCache(r.cache)
    ensures path == Sanitize(fallback) || (cid in r.cache && r.cache[cid] == path)
    ensures cid in api ==> cid in r.cache && r.cache[cid] == path
    ensures Extends(r.cache, old(r.cache)) && forall k :: k in r.cache && k !in old(r.cache) ==> k in api
    ensures r.cache == Resolve(api, old(r.cache), Some(cid), fallback, false, rank).cache
  {
    ResolveWellFormed(api, r.cache, Some(cid), fallback, false, rank);
    var res := r.ResolveFolderPath(api, Some(cid), fallback, false, rank);
    path := res.path;
  }

  /** What the children loop has established over the ids `seen` so far: the unvisited ones are
      queued, the fetchable ones have their cached path collected, and the cache only grew. */
  ghost predicate Scanned(api: FolderApi, seen: set<int>, visited: set<int>, added: seq<int>, found: set<string>,
                          cache: map<int, string>, before: map<int, string>, fallbackPath: string)
  {
    && (forall c :: c in Elems(added) ==> c in seen && c !in visited)
    && (forall c :: c in seen && c !in visited ==> c in Elems(added))
    && (forall c :: c in seen && c in api ==> c in cache && cache[c] in found)
    && WellFormedPaths(found) && PathsFrom(found, cache, fallbackPath)
    && Extends(cache, before) && WellFormedCache(cache)
    && (forall k :: k in cache && k !in before ==> k in api)
  }

  /** The ids a sequence holds. */
  function Elems(s: seq<int>): set<int> {
    if s == [] then {} else Elems(s[..|s| - 1]) + {s[|s| - 1]}
  }

  lemma ElemsSnoc(s: seq<int>, x: int)
    ensures Elems(s + [x]) == Elems(s) + {x}
  {
    assert (s + [x])[..|s|] == s;
  }

  lemma {:induction false} ElemsAppend(a: seq<int>, b: seq<int>)
    ensures Elems(a + b) == Elems(a) + Elems(b)
    decreases |b|
  {
    if b == [] {
      assert a + b == a;
    } else {
      var b' := b[..|b| - 1];
      assert a + b == (a + b') + [b[|b| - 1]];
      assert b == b' + [b[|b| - 1]];
      ElemsAppend(a, b');
      ElemsSnoc(a + b', b[|b| - 1]);
      ElemsSnoc(b', b[|b| - 1]);
    }
  }

  /** The ids of a queue are its head and the ids of its tail. */
  lemma ElemsCons(s: seq<int>)
    requires s != []
    ensures Elems(s) == {s[0]} + Elems(s[1..])
  {
    assert s == [s[0]] + s[1..];
    ElemsAppend([s[0]], s[1..]);
    ElemsSnoc([], s[0]);
  }

  /** A sequence's ids are its members. */
  lemma {:induction false} ElemsMembers(s: seq<int>)
    ensures forall x :: x in Elems(s) <==> x in s
  {
    if s != [] {
      ElemsMembers(s[..|s| - 1]);
      assert s == s[..|s| - 1] + [s[|s| - 1]];
    }
  }

  lemma SeenSnoc(seen: set<int>, items: seq<ListItem>, i: nat)
    requires i < |items|
    ensures seen + Elems(Ids(items[..i + 1]))
            == seen + Elems(Ids(items[..i])) + (if items[i].id != 0 then {items[i].id} else {})
  {
    IdsSnoc(items, i);
    ElemsAppend(Ids(items[..i]), if items[i].id != 0 then [items[i].id] else []);
  }

  lemma EmptyPrefix(a: seq<int>)
    ensures [] + a == a
  {
  }

  lemma Concat3(a: seq<int>, b: seq<int>, c: seq<int>)
    ensures a + (b + c) == (a + b) + c
    ensures a + (b + []) == a + b
  {
  }

  /** One listed child handled: queued unless visited, its path collected. */
  lemma ScanOne(api: FolderApi, seen: set<int>, visited: set<int>, added: seq<int>, found: set<string>,
                cache: map<int, string>, cache': map<int, string>, before: map<int, string>, cid: int, path: string,
                fallbackPath: string)
    requires Scanned(api, seen, visited, added, found, cache, before, fallbackPath)
    requires Extends(cache', cache) && WellFormedCache(cache') && forall k :: k in cache' && k !in cache ==> k in api
    requires WellFormedPath(path) && (path == fallbackPath || (cid in cache' && cache'[cid] == path))
    requires cid in api ==> cid in cache' && cache'[cid] == path
    ensures Scanned(api, seen + {cid}, visited, if cid !in visited then added + [cid] else added, found + {path}, cache', before, fallbackPath)
  {
    ValuesGrow(cache', cache);
    ElemsSnoc(added, cid);
  }

  /** The paths a cache holds: Python's `set(cache.values())`. */
  function ValuesOf(cache: map<int, string>): set<string> {
    set k | k in cache :: cache[k]
  }

  lemma ValuesGrow(cache': map<int, string>, cache: map<int, string>)
    requires Extends(cache', cache)
    ensures ValuesOf(cache) <= ValuesOf(cache')
  {
    forall p | p in ValuesOf(cache) ensures p in ValuesOf(cache') {
      var k :| k in cache && cache[k] == p;
      assert cache'[k] == p;
    }
  }

  /** The loop over one page of children. */
  method ScanPage(api: FolderApi, items: seq<ListItem>, visited: set<int>, r: FolderResolver, ghost rank: int -> nat,
                  ghost prefix: seq<int>, added: seq<int>, found: set<string>, ghost before: map<int, string>,
                  fallback: string, ghost fb: string)
    returns (added': seq<int>, found': set<string>)
    requires Ranked(api, rank) && Sanitize(fallback) == fb
    requires Scanned(api, Elems(prefix), visited, added, found, r.cache, before, fb)
    modifies r
    ensures Scanned(api, Elems(prefix + Ids(items)), visited, added', found', r.cache, before, fb)
  {
    ghost var seen := Elems(prefix);
    ElemsAppend(prefix, Ids(items));
    added', found' := added, found;
    for i := 0 to |items|
      invariant Scanned(api, seen + Elems(Ids(items[..i])), visited, added', found', r.cache, before, fb)
    {
      SeenSnoc(seen, items, i);
      var cid := items[i].id;
      if cid != 0 {
        ghost var cache0 := r.cache;
        var path := ResolveListed(api, r, cid, fallback, rank);
        ScanOne(api, seen + Elems(Ids(items[..i])), visited, added', found', cache0, r.cache, before, cid, path, fb);
        if path != "" {
          found' := found' + {path};
        }
        if cid !in visited {
          added' := added' + [cid];
        }
      }
    }
    assert items[..|items|] == items;
  }

  /** One page of a folder's children read and scanned: `seen` is what the pages before it listed,
      `total` what the whole listing holds. */
  method ScanListedPage(api: FolderApi, pages: Listing, k: nat, visited: set<int>, r: FolderResolver,
                        ghost rank: int -> nat, ghost seen: seq<int>, ghost total: seq<int>, added: seq<int>,
                        found: set<string>, ghost before: map<int, string>, fallback: string, ghost fb: string)
    returns (added': seq<int>, found': set<string>, ghost seen': seq<int>)
    requires k < |pages| && pages[k].PageOk? && pages[k].items != []
    requires seen + Ids(ReadItems(pages, k, true)) == total
    requires Ranked(api, rank) && Sanitize(fallback) == fb
    requires Scanned(api, Elems(seen), visited, added, found, r.cache, before, fb)
    modifies r
    ensures pages[k].hasMore ==> seen' + Ids(ReadItems(pages, k + 1, true)) == total
    ensures !pages[k].hasMore ==> seen' == total
    ensures Scanned(api, Elems(seen'), visited, added', found', r.cache, before, fb)
  {
    ReadAdvance(pages, k, true, seen, total);
    added', found' := ScanPage(api, pages[k].items, visited, r, rank, seen, added, found, before, fallback, fb);
    seen' := seen + Ids(pages[k].items);
  }

  /** The children-listing loop of `enumerate_all_folders` for folder `f`: each listed child is
      resolved (non-strict, with `fallback`), its path collected, and it is queued unless already
      visited. The loop stops at a failed or empty page, or at a page without `hasMore`. */
  /** One round of the children-listing loop: stop at a missing, failed or empty page, else scan
      the page and go on while it says `hasMore`. */
  method ScanRound(api: FolderApi, pages: Listing, k: nat, visited: set<int>, r: FolderResolver,
                   ghost rank: int -> nat, ghost seen: seq<int>, ghost total: seq<int>, added: seq<int>,
                   found: set<string>, ghost before: map<int, string>, fallback: string, ghost fb: string)
    returns (k': nat, more: bool, added': seq<int>, found': set<string>, ghost seen': seq<int>)
    requires k <= |pages| && seen + Ids(ReadItems(pages, k, true)) == total
    requires Ranked(api, rank) && Sanitize(fallback) == fb
    requires Scanned(api, Elems(seen), visited, added, found, r.cache, before, fb)
    modifies r
    ensures k <= k' <= |pages| && (more ==> k < k')
    ensures more ==> seen' + Ids(ReadItems(pages, k', true)) == total
    ensures !more ==> seen' == total
    ensures Scanned(api, Elems(seen'), visited, added', found', r.cache, before, fb)
  {
    if k == |pages| || pages[k].PageFailed? || pages[k].items == [] {
      ReadStop(pages, k, true, seen, total);
      return k, false, added, found, seen;
    }
    more := pages[k].hasMore;
    added', found', seen' := ScanListedPage(api, pages, k, visited, r, rank, seen, total, added, found,
                                            before, fallback, fb);
    k' := if more then k + 1 else k;
  }

  /** The children-listing loop of `enumerate_all_folders` for folder `f`: each listed child is
      resolved (non-strict, with `fallback`), its path collected, and it is queued unless already
      visited. The loop stops at a failed or empty page, or at a page without `hasMore`. */
  method ScanChildren(api: FolderApi, ch: ChildListings, f: int, visited: set<int>, r: FolderResolver,
                      ghost rank: int -> nat, fallback: string, ghost fb: string)
    returns (added: seq<int>, found: set<string>)
    requires Ranked(api, rank) && WellFormedCache(r.cache) && Sanitize(fallback) == fb
    modifies r
    ensures Scanned(api, Elems(Children(ch, f)), visited, added, found, r.cache, old(r.cache), fb)
  {
    var pages := PagesOf(ch, f);
    added, found := [], {};
    ghost var total := Children(ch, f);
    ghost var seen: seq<int> := [];
    EmptyPrefix(total);
    var k := 0;
    var more := true;
    while more
      invariant k <= |pages|
      invariant more ==> seen + Ids(ReadItems(pages, k, true)) == total
      invariant !more ==> seen == total
      invariant Scanned(api, Elems(seen), visited, added, found, r.cache, old(r.cache), fb)
      decreases |pages| - k, more
    {
      k, more, added, found, seen := ScanRound(api, pages, k, visited, r, rank, seen, total, added, found,
                                               old(r.cache), fallback, fb);
    }
  }

  /** The queue side of the breadth-first walk's invariant: everything queued lies in `universe`,
      every root is visited or queued, and the listed children of visited folders are visited or
      queued. */
  ghost predicate Frontier(ch: ChildListings, universe: set<int>, roots: seq<int>, seen: set<int>, q: seq<int>) {
    && (forall x :: x in Elems(q) ==> x in universe)
    && (forall x :: x in Elems(roots) ==> x in seen || x in Elems(q))
    && (forall f, c :: f in seen && c in Elems(Children(ch, f)) ==> c in seen || c in Elems(q))
  }

  /** The path side: every fetchable folder visited or queued has its cached path collected, the
      cache only grew, and the paths collected are cached ones or the fallback. */
  ghost predicate Collected(api: FolderApi, seen: set<int>, q: seq<int>, paths: set<string>,
                            cache: map<int, string>, before: map<int, string>, fallbackPath: string)
  {
    && (forall c :: (c in seen || c in Elems(q)) && c in api ==> c in cache && cache[c] in paths)
    && ValuesOf(before) <= paths
    && Extends(cache, before) && WellFormedCache(cache)
    && (forall k :: k in cache && k !in before ==> k in api)
    && WellFormedPaths(paths) && PathsFrom(paths, cache, fallbackPath)
  }

  /** The invariant of the breadth-first walk. */
  ghost predicate Walk(api: FolderApi, ch: ChildListings, universe: set<int>, roots: seq<int>, seen: set<int>,
                       q: seq<int>, paths: set<string>, cache: map<int, string>, before: map<int, string>,
                       fallbackPath: string)
  {
    Frontier(ch, universe, roots, seen, q) && Collected(api, seen, q, paths, cache, before, fallbackPath)
  }

  /** The walk starts with the roots queued and the cached paths collected. */
  lemma WalkStart(api: FolderApi, ch: ChildListings, universe: set<int>, roots: seq<int>, cache: map<int, string>,
                  before: map<int, string>, fallbackPath: string)
    requires forall x :: x in roots ==> x in universe
    requires forall j :: 0 <= j < |roots| && roots[j] in api ==> roots[j] in cache
    requires Extends(cache, before) && WellFormedCache(cache)
    requires forall k :: k in cache && k !in before ==> k in api
    ensures Walk(api, ch, universe, roots, {}, roots, ValuesOf(cache), cache, before, fallbackPath)
  {
    ElemsMembers(roots);
    ValuesGrow(cache, before);
    forall p | p in ValuesOf(cache) ensures WellFormedPath(p) {
      var k :| k in cache && cache[k] == p;
    }
  }

  /** Popping a folder already visited keeps the invariant. */
  lemma WalkSkip(api: FolderApi, ch: ChildListings, universe: set<int>, roots: seq<int>, seen: set<int>,
                 q: seq<int>, paths: set<string>, cache: map<int, string>, before: map<int, string>,
                 fallbackPath: string)
    requires Walk(api, ch, universe, roots, seen, q, paths, cache, before, fallbackPath)
    requires q != [] && q[0] in seen
    ensures Walk(api, ch, universe, roots, seen, q[1..], paths, cache, before, fallbackPath)
  {
    ElemsCons(q);
  }

  lemma FrontierVisit(ch: ChildListings, universe: set<int>, roots: seq<int>, seen: set<int>, q: seq<int>,
                      added: seq<int>)
    requires Frontier(ch, universe, roots, seen, q) && Closed(ch, universe) && q != []
    requires forall c :: c in Elems(added) ==> c in Elems(Children(ch, q[0]))
    requires forall c :: c in Elems(Children(ch, q[0])) && c !in seen + {q[0]} ==> c in Elems(added)
    ensures q[0] in universe
    ensures Frontier(ch, universe, roots, seen + {q[0]}, q[1..] + added)
  {
    ElemsCons(q);
    ElemsAppend(q[1..], added);
  }

  lemma CollectedVisit(api: FolderApi, ch: ChildListings, seen: set<int>, q: seq<int>, paths: set<string>,
                       cache: map<int, string>, cache': map<int, string>, before: map<int, string>,
                       fallbackPath: string, added: seq<int>, found: set<string>)
    requires Collected(api, seen, q, paths, cache, before, fallbackPath) && q != []
    requires Scanned(api, Elems(Children(ch, q[0])), seen + {q[0]}, added, found, cache', cache, fallbackPath)
    ensures Collected(api, seen + {q[0]}, q[1..] + added, paths + found, cache', before, fallbackPath)
  {
    ElemsCons(q);
    ElemsAppend(q[1..], added);
    ValuesGrow(cache', cache);
  }

  /** Visiting the head of the queue: it lies in `universe`, and once its children are scanned and
      the unvisited ones queued, the invariant holds again with it visited. */
  lemma WalkVisit(api: FolderApi, ch: ChildListings, universe: set<int>, roots: seq<int>, seen: set<int>,
                  q: seq<int>, paths: set<string>, cache: map<int, string>, cache': map<int, string>,
                  before: map<int, string>, fallbackPath: string, added: seq<int>, found: set<string>)
    requires Walk(api, ch, universe, roots, seen, q, paths, cache, before, fallbackPath)
    requires Closed(ch, universe) && q != [] && q[0] !in seen
    requires Scanned(api, Elems(Children(ch, q[0])), seen + {q[0]}, added, found, cache', cache, fallbackPath)
    ensures q[0] in universe
    ensures Walk(api, ch, universe, roots, seen + {q[0]}, q[1..] + added, paths + found, cache', before, fallbackPath)
  {
    FrontierVisit(ch, universe, roots, seen, q, added);
    CollectedVisit(api, ch, seen, q, paths, cache, cache', before, fallbackPath, added, found);
  }

  lemma Shrink(universe: set<int>, seen: set<int>, x: int)
    requires x in universe && x !in seen
    ensures |universe - (seen + {x})| < |universe - seen|
  {
    assert universe - seen == (universe - (seen + {x})) + {x};
  }

  /** The cache left by resolving (non-strict) the first `i` roots in turn, starting from `cache`. */
  ghost function ResolvedUpTo(api: FolderApi, cache: map<int, string>, roots: seq<int>, i: nat, fallback: string,
                              rank: int -> nat): map<int, string>
    requires Ranked(api, rank) && i <= |roots|
  {
    if i == 0 then cache
    else Resolve(api, ResolvedUpTo(api, cache, roots, i - 1, fallback, rank), Some(roots[i - 1]), fallback, false, rank).cache
  }

  lemma ResolvedUpToStep(api: FolderApi, cache: map<int, string>, roots: seq<int>, i: nat, fallback: string,
                         rank: int -> nat, before: map<int, string>, after: map<int, string>)
    requires Ranked(api, rank) && i < |roots|
    requires before == ResolvedUpTo(api, cache, roots, i, fallback, rank)
    requires after == Resolve(api, before, Some(roots[i]), fallback, false, rank).cache
    ensures after == ResolvedUpTo(api, cache, roots, i + 1, fallback, rank)
  {
  }

  /** The first pass of `enumerate_all_folders`: every root resolved (non-strict), so every
      fetchable root is cached, and the cache is what resolving the roots in order leaves. */
  method ResolveRoots(api: FolderApi, r: FolderResolver, roots: seq<int>, fallback: string, ghost rank: int -> nat)
    requires Ranked(api, rank) && WellFormedCache(r.cache)
    requires forall j :: 0 <= j < |roots| ==> roots[j] != 0
    modifies r
    ensures Extends(r.cache, old(r.cache)) && WellFormedCache(r.cache)
    ensures forall k :: k in r.cache && k !in old(r.cache) ==> k in api
    ensures forall j :: 0 <= j < |roots| && roots[j] in api ==> roots[j] in r.cache
    ensures r.cache == ResolvedUpTo(api, old(r.cache), roots, |roots|, fallback, rank)
  {
    for i := 0 to |roots|
      invariant Extends(r.cache, old(r.cache)) && WellFormedCache(r.cache)
      invariant forall k :: k in r.cache && k !in old(r.cache) ==> k in api
      invariant forall j :: 0 <= j < i && roots[j] in api ==> roots[j] in r.cache
      invariant r.cache == ResolvedUpTo(api, old(r.cache), roots, i, fallback, rank)
    {
      ghost var cache0 := r.cache;
      var _ := ResolveListed(api, r, roots[i], fallback, rank);
      ResolvedUpToStep(api, old(r.cache), roots, i, fallback, rank, cache0, r.cache);
      forall j | 0 <= j <= i && roots[j] in api
        ensures roots[j] in r.cache
      {
        if j < i {
          assert roots[j] in cache0;
        }
      }
    }
  }

  /** The walk ends with the queue empty: every root visited, the visited set closed under listed
      children, and the cached path of every fetchable visited folder collected. */
  lemma WalkDone(api: FolderApi, ch: ChildListings, universe: set<int>, roots: seq<int>, seen: set<int>,
                 paths: set<string>, cache: map<int, string>, before: map<int, string>, fallbackPath: string)
    requires Walk(api, ch, universe, roots, seen, [], paths, cache, before, fallbackPath)
    ensures forall x :: x in roots ==> x in seen
    ensures forall f, c :: f in seen && c in Elems(Children(ch, f)) ==> c in seen
    ensures forall c :: c in seen && c in api ==> c in cache && cache[c] in paths
  {
    ElemsMembers(roots);
  }

  /** The breadth-first loop of `enumerate_all_folders`: pop a folder, skip it if visited, otherwise
      mark it visited, scan its children and queue the unvisited ones. */
  method WalkQueue(api: FolderApi, ch: ChildListings, r: FolderResolver, ghost rank: int -> nat,
                   ghost universe: set<int>, roots: seq<int>, paths0: set<string>, ghost before: map<int, string>,
                   fallback: string, ghost fb: string)
    returns (paths: set<string>, ghost visited: set<int>)
    requires Ranked(api, rank) && Closed(ch, universe) && Sanitize(fallback) == fb
    requires Walk(api, ch, universe, roots, {}, roots, paths0, r.cache, before, fb)
    modifies r
    ensures Walk(api, ch, universe, roots, visited, [], paths, r.cache, before, fb)
  {
    var seen: set<int> := {};
    paths := paths0;
    var q := roots;
    while q != []
      invariant Walk(api, ch, universe, roots, seen, q, paths, r.cache, before, fb)
      decreases |universe - seen|, |q|
    {
      ghost var q0 := q;
      var fid := q[0];
      q := q[1..];
      if fid in seen {
        WalkSkip(api, ch, universe, roots, seen, q0, paths, r.cache, before, fb);
        continue;
      }
      ghost var cache0 := r.cache;
      var added, found := ScanChildren(api, ch, fid, seen + {fid}, r, rank, fallback, fb);
      WalkVisit(api, ch, universe, roots, seen, q0, paths, cache0, r.cache, before, fb, added, found);
      Shrink(universe, seen, fid);
      seen := seen + {fid};
      paths := paths + found;
      q := q + added;
    }
    visited := seen;
  }

  /** `enumerate_all_folders` with the fallback of its listing loops as a parameter: the paths of
      every folder reachable from the roots, walked breadth first with a visited set. `visited` is
      the set of folders whose children were listed. */
  method EnumerateFolders(api: FolderApi, rootPages: Listing, ch: ChildListings, r: FolderResolver,
                          fallback: string, ghost rank: int -> nat, ghost universe: set<int>)
    returns (paths: set<string>, ghost visited: set<int>, ghost rootCache: map<int, string>)
    requires Ranked(api, rank) && WellFormedCache(r.cache)
    requires Closed(ch, universe) && forall x :: x in ListedIds(rootPages, false) ==> x in universe
    modifies r
    ensures ListedIds(rootPages, false) == [] ==> paths == {} && r.cache == old(r.cache)
    // the result starts as every path cached once the roots are resolved, ancestors included
    ensures rootCache == ResolvedUpTo(api, old(r.cache), ListedIds(rootPages, false), |ListedIds(rootPages, false)|,
                                      fallback, rank)
    ensures ListedIds(rootPages, false) != [] ==> ValuesOf(rootCache) <= paths
    ensures ListedIds(rootPages, false) != [] ==> ValuesOf(old(r.cache)) <= paths
    ensures Extends(rootCache, old(r.cache)) && Extends(r.cache, rootCache) && WellFormedCache(r.cache)
    ensures forall k :: k in r.cache && k !in old(r.cache) ==> k in api
    ensures WellFormedPaths(paths) && PathsFrom(paths, r.cache, Sanitize(fallback))
    // every root is walked, the walk is closed under listed children, and every fetchable folder
    // it reaches has its cached path in the result
    ensures forall x :: x in ListedIds(rootPages, false) ==> x in visited
    ensures forall f, c :: f in visited && c in Elems(Children(ch, f)) ==> c in visited
    ensures forall c :: c in visited && c in api ==> c in r.cache && r.cache[c] in paths
  {
    var roots := FetchRootFolders(rootPages);
    rootCache := r.cache;
    if roots == [] {
      return {}, {}, rootCache;
    }
    ResolveRoots(api, r, roots, fallback, rank);
    rootCache := r.cache;
    ghost var fb := Sanitize(fallback);
    WalkStart(api, ch, universe, roots, r.cache, r.cache, fb);
    paths, visited := WalkQueue(api, ch, r, rank, universe, roots, ValuesOf(r.cache), rootCache, fallback, fb);
    WalkDone(api, ch, universe, roots, visited, paths, r.cache, rootCache, fb);
    ValuesGrow(rootCache, old(r.cache));
  }

  /** `enumerate_all_folders`: children that cannot be resolved fall back to `"Documents"`. */
  method EnumerateAllFolders(api: FolderApi, rootPages: Listing, ch: ChildListings, r: FolderResolver,
                             ghost rank: int -> nat, ghost universe: set<int>)
    returns (paths: set<string>, ghost visited: set<int>, ghost rootCache: map<int, string>)
    requires Ranked(api, rank) && WellFormedCache(r.cache)
    requires Closed(ch, universe) && forall x :: x in ListedIds(rootPages, false) ==> x in universe
    modifies r
    ensures ListedIds(rootPages, false) == [] ==> paths == {} && r.cache == old(r.cache)
    ensures rootCache == ResolvedUpTo(api, old(r.cache), ListedIds(rootPages, false), |ListedIds(rootPages, false)|,
                                      "Documents", rank)
    ensures ListedIds(rootPages, false) != [] ==> ValuesOf(rootCache) <= paths
    ensures ListedIds(rootPages, false) != [] ==> ValuesOf(old(r.cache)) <= paths
    ensures Extends(rootCache, old(r.cache)) && Extends(r.cache, rootCache) && WellFormedCache(r.cache)
    ensures forall k :: k in r.cache && k !in old(r.cache) ==> k in api
    ensures WellFormedPaths(paths) && PathsFrom(paths, r.cache, "Documents")
    ensures forall x :: x in ListedIds(rootPages, false) ==> x in visited
    ensures forall f, c :: f in visited && c in Elems(Children(ch, f)) ==> c in visited
    ensures forall c :: c in visited && c in api ==> c in r.cache && r.cache[c] in paths
  {
    paths, visited, rootCache := EnumerateFolders(api, rootPages, ch, r, "Documents", rank, universe);
    PathsFromDocuments(paths, r.cache);
  }
}
