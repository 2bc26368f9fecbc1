/** `fetch_complete_folder_structure`: a breadth-first walk from the roots that builds the folder map
    directly (with no visited set), and, when no root can be listed, a map derived from the folder
    ids the documents name. */
module Complete {
  import opened Wrappers
  import opened Names
  import opened Remote
  import opened Resolver
  import opened Discovery
  import opened Documents

  /** The children the walk reads for folder `f`: every page until a failed request or a page
      without `hasMore` (an empty page does not stop it). */
  function KidItems(ch: ChildListings, f: int): seq<ListItem> {
    ReadItems(PagesOf(ch, f), 0, false)
  }

  function Kids(ch: ChildListings, f: int): seq<int> {
    Ids(KidItems(ch, f))
  }

  /** The walk keeps no visited set, so it ends only when the listings form a finite tree (or
      DAG): every listed child ranks strictly below its parent. */
  ghost predicate KidsRanked(ch: ChildListings, crank: int -> nat) {
    forall f, i :: 0 <= i < |Kids(ch, f)| ==> crank(Kids(ch, f)[i]) < crank(f)
  }

  /** How many times the walk dequeues folders when it starts from `f`: `f` itself and, for each
      listed child, that child's own count. */
  ghost function Size(ch: ChildListings, crank: int -> nat, f: int): nat
    requires KidsRanked(ch, crank)
    decreases crank(f), 1
  {
    1 + SizeBelow(ch, crank, Kids(ch, f), crank(f))
  }

  ghost function SizeBelow(ch: ChildListings, crank: int -> nat, xs: seq<int>, bound: nat): nat
    requires KidsRanked(ch, crank)
    requires forall i :: 0 <= i < |xs| ==> crank(xs[i]) < bound
    decreases bound, 0, |xs|
  {
    if xs == [] then 0
    else SizeBelow(ch, crank, xs[..|xs| - 1], bound) + Size(ch, crank, xs[|xs| - 1])
  }

  /** The work left in a queue: the sum of its folders' sizes. */
  ghost function Work(ch: ChildListings, crank: int -> nat, q: seq<int>): nat
    requires KidsRanked(ch, crank)
  {
    if q == [] then 0 else Work(ch, crank, q[..|q| - 1]) + Size(ch, crank, q[|q| - 1])
  }

  lemma {:induction false} SizeBelowIsWork(ch: ChildListings, crank: int -> nat, xs: seq<int>, bound: nat)
    requires KidsRanked(ch, crank)
    requires forall i :: 0 <= i < |xs| ==> crank(xs[i]) < bound
    ensures SizeBelow(ch, crank, xs, bound) == Work(ch, crank, xs)
    decreases |xs|
  {
    if xs != [] {
      SizeBelowIsWork(ch, crank, xs[..|xs| - 1], bound);
    }
  }

  /** A folder's size is one more than the work of its listed children. */
  lemma SizeUnfold(ch: ChildListings, crank: int -> nat, f: int)
    requires KidsRanked(ch, crank)
    ensures Size(ch, crank, f) == 1 + Work(ch, crank, Kids(ch, f))
  {
    SizeBelowIsWork(ch, crank, Kids(ch, f), crank(f));
  }

  lemma WorkSnoc(ch: ChildListings, crank: int -> nat, q: seq<int>, x: int)
    requires KidsRanked(ch, crank)
    ensures Work(ch, crank, q + [x]) == Work(ch, crank, q) + Size(ch, crank, x)
  {
    assert (q + [x])[..|q|] == q;
  }

  lemma {:induction false} WorkAppend(ch: ChildListings, crank: int -> nat, a: seq<int>, b: seq<int>)
    requires KidsRanked(ch, crank)
    ensures Work(ch, crank, a + b) == Work(ch, crank, a) + Work(ch, crank, b)
    decreases |b|
  {
    if b == [] {
      assert a + b == a;
    } else {
      var b' := b[..|b| - 1];
      assert a + b == (a + b') + [b[|b| - 1]];
      assert b == b' + [b[|b| - 1]];
      WorkAppend(ch, crank, a, b');
      WorkSnoc(ch, crank, a + b', b[|b| - 1]);
      WorkSnoc(ch, crank, b', b[|b| - 1]);
    }
  }

  /** Dequeuing the head of a non-empty queue leaves its size less work. */
  lemma WorkCons(ch: ChildListings, crank: int -> nat, q: seq<int>)
    requires KidsRanked(ch, crank) && q != []
    ensures Work(ch, crank, q) == Size(ch, crank, q[0]) + Work(ch, crank, q[1..])
  {
    assert q == [q[0]] + q[1..];
    WorkAppend(ch, crank, [q[0]], q[1..]);
    WorkSnoc(ch, crank, [], q[0]);
  }

  /** The name a listed child gets: its sanitized listed `name` when that is non-empty, otherwise
      the name its own record reports (`sanitize(info.get("name", "Unnamed"))`, which is
      `NameOf`); `None` when that record cannot be fetched, and the child is skipped. */
  function ChildName(api: FolderApi, item: ListItem): (n: Option<string>)
    ensures n.Some? <==> (item.name.Some? && item.name.value != "") || item.id in api
    ensures n.Some? ==> WellFormedPath(n.value) && '/' !in n.value
  {
    if item.name.Some? && item.name.value != "" then
      SanitizedIsPath(item.name.value);
      Some(Sanitize(item.name.value))
    else if item.id in api then Some(NameOf(api[item.id]))
    else None
  }

  /** A listed child the walk maps and queues: a non-zero id, and a name, listed or fetched. */
  predicate Accepted(api: FolderApi, item: ListItem) {
    item.id != 0 && ((item.name.Some? && item.name.value != "") || item.id in api)
  }

  /** The listed children the walk maps and queues, in order. */
  function Taken(api: FolderApi, items: seq<ListItem>): (r: seq<int>)
    ensures forall i :: 0 <= i < |r| ==> r[i] != 0
  {
    if items == [] then []
    else
      var last := items[|items| - 1];
      Taken(api, items[..|items| - 1]) + (if Accepted(api, last) then [last.id] else [])
  }

  lemma TakenSnoc(api: FolderApi, items: seq<ListItem>, i: nat)
    requires i < |items|
    ensures Taken(api, items[..i + 1])
            == Taken(api, items[..i]) + (if Accepted(api, items[i]) then [items[i].id] else [])
  {
    assert items[..i + 1][..i] == items[..i];
  }

  lemma {:induction false} TakenAppend(api: FolderApi, a: seq<ListItem>, b: seq<ListItem>)
    ensures Taken(api, a + b) == Taken(api, a) + Taken(api, b)
    decreases |b|
  {
    if b == [] {
      assert a + b == a;
    } else {
      var init := b[..|b| - 1];
      assert (a + b)[..|a + b| - 1] == a + init;
      assert (a + b)[|a + b| - 1] == b[|b| - 1];
      TakenAppend(api, a, init);
    }
  }

  /** The children taken weigh no more than all the children listed. */
  lemma {:induction false} TakenWeight(api: FolderApi, ch: ChildListings, crank: int -> nat, items: seq<ListItem>)
    requires KidsRanked(ch, crank)
    ensures Work(ch, crank, Taken(api, items)) <= Work(ch, crank, Ids(items))
    decreases |items|
  {
    if items != [] {
      var init := items[..|items| - 1];
      var last := items[|items| - 1];
      TakenWeight(api, ch, crank, init);
      WorkAppend(ch, crank, Taken(api, init), if Accepted(api, last) then [last.id] else []);
      WorkAppend(ch, crank, Ids(init), if last.id != 0 then [last.id] else []);
    }
  }

  /** The children loop's bookkeeping when it stops at page `k`: every item has been read. */
  lemma {:induction false} ItemsStop(l: Listing, k: nat, done: seq<ListItem>, all: seq<ListItem>)
    requires done + ReadItems(l, k, false) == all
    requires k >= |l| || l[k].PageFailed?
    ensures done == all
  {
    assert ReadItems(l, k, false) == [];
    assert done + [] == done;
  }

  /** The children loop's bookkeeping when it reads page `k`. */
  lemma {:induction false} ItemsAdvance(l: Listing, k: nat, done: seq<ListItem>, all: seq<ListItem>)
    requires done + ReadItems(l, k, false) == all
    requires k < |l| && l[k].PageOk?
    ensures l[k].hasMore ==> (done + l[k].items) + ReadItems(l, k + 1, false) == all
    ensures !l[k].hasMore ==> done + l[k].items == all
  {
    var rest := if l[k].hasMore then ReadItems(l, k + 1, false) else [];
    assert ReadItems(l, k, false) == l[k].items + rest;
    assert done + (l[k].items + rest) == (done + l[k].items) + rest;
    assert (done + l[k].items) + [] == done + l[k].items;
  }

  /** Queueing the children taken from one more page. */
  lemma {:induction false} TakenExtend(api: FolderApi, q: seq<int>, done: seq<ListItem>, items: seq<ListItem>)
    ensures (q + Taken(api, done)) + Taken(api, items) == q + Taken(api, done + items)
  {
    TakenAppend(api, done, items);
    assert (q + Taken(api, done)) + Taken(api, items) == q + (Taken(api, done) + Taken(api, items));
  }

  /** A parent whose path is not yet mapped is resolved non-strictly with the fallback `""`, which
      sanitizes to `"Unnamed"`, so the path is never empty. */
  method ResolveParent(api: FolderApi, r: FolderResolver, pid: int, ghost rank: int -> nat) returns (path: string)
    requires Ranked(api, rank) && WellFormedCache(r.cache) && pid != 0
    modifies r
    ensures WellFormedPath(path) && path != "" && WellFormedCache(r.cache)
    ensures pid in api ==> pid in r.cache && r.cache[pid] == path
  {
    path := ResolveListed(api, r, pid, "", rank);
  }

  /** One listed child of `pid`: skipped when its id is zero or it has no name; otherwise the parent
      path is resolved first if still empty (non-strict, fallback `""`, and stored for `pid`), and
      the child is mapped to `<parent path>/<name>` and queued. */
  method AddChild(api: FolderApi, r: FolderResolver, pid: int, item: ListItem, parentPath: string,
                  folderMap: map<int, string>, q: seq<int>, ghost rank: int -> nat)
    returns (parentPath': string, folderMap': map<int, string>, q': seq<int>)
    requires Ranked(api, rank) && WellFormedCache(r.cache) && WellFormedCache(folderMap) && pid != 0
    requires parentPath == "" || WellFormedPath(parentPath)
    modifies r
    ensures WellFormedCache(r.cache) && WellFormedCache(folderMap')
    ensures parentPath' == "" || WellFormedPath(parentPath')
    ensures parentPath != "" ==> parentPath' == parentPath
    ensures forall k :: k in folderMap ==> k in folderMap'
    ensures forall k :: k in folderMap' ==> k in folderMap || k == item.id || k == pid
    ensures q' == q + (if Accepted(api, item) then [item.id] else [])
    ensures forall j :: |q| <= j < |q'| ==> q'[j] in folderMap'
    ensures Accepted(api, item) ==>
              parentPath' != "" && item.id in folderMap'
              && folderMap'[item.id] == parentPath' + "/" + ChildName(api, item).value
  {
    parentPath', folderMap', q' := parentPath, folderMap, q;
    var cid := item.id;
    var cname := ChildName(api, item);
    if cid == 0 || cname.None? {
      return;
    }
    if parentPath' == "" {
      parentPath' := ResolveParent(api, r, pid, rank);
      WellFormedCacheAdd(folderMap', pid, parentPath');
      folderMap' := folderMap'[pid := parentPath'];
    }
    JoinWellFormed(parentPath', cname.value);
    WellFormedCacheAdd(folderMap', cid, parentPath' + "/" + cname.value);
    folderMap' := folderMap'[cid := parentPath' + "/" + cname.value];
    q' := q' + [cid];
  }

  /** One page of `pid`'s children, item by item. */
  method AddPage(api: FolderApi, r: FolderResolver, pid: int, items: seq<ListItem>, parentPath: string,
                 folderMap: map<int, string>, q: seq<int>, ghost rank: int -> nat)
    returns (parentPath': string, folderMap': map<int, string>, q': seq<int>)
    requires Ranked(api, rank) && WellFormedCache(r.cache) && WellFormedCache(folderMap) && pid != 0
    requires parentPath == "" || WellFormedPath(parentPath)
    modifies r
    ensures WellFormedCache(r.cache) && WellFormedCache(folderMap')
    ensures parentPath' == "" || WellFormedPath(parentPath')
    ensures forall k :: k in folderMap ==> k in folderMap'
    ensures q' == q + Taken(api, items)
    ensures forall j :: |q| <= j < |q'| ==> q'[j] in folderMap'
  {
    parentPath', folderMap', q' := parentPath, folderMap, q;
    for i := 0 to |items|
      invariant WellFormedCache(r.cache) && WellFormedCache(folderMap')
      invariant parentPath' == "" || WellFormedPath(parentPath')
      invariant forall k :: k in folderMap ==> k in folderMap'
      invariant q' == q + Taken(api, items[..i])
      invariant forall j :: |q| <= j < |q'| ==> q'[j] in folderMap'
    {
      TakenSnoc(api, items, i);
      parentPath', folderMap', q' := AddChild(api, r, pid, items[i], parentPath', folderMap', q', rank);
    }
    assert items[..|items|] == items;
  }

  /** The children loop for `pid`: page after page until a failed request or a page without
      `hasMore`; the queue gains exactly the children taken, in listing order. */
  method AddChildren(api: FolderApi, ch: ChildListings, r: FolderResolver, pid: int, parentPath: string,
                     folderMap: map<int, string>, q: seq<int>, ghost rank: int -> nat)
    returns (folderMap': map<int, string>, q': seq<int>)
    requires Ranked(api, rank) && WellFormedCache(r.cache) && WellFormedCache(folderMap) && pid != 0
    requires parentPath == "" || WellFormedPath(parentPath)
    modifies r
    ensures WellFormedCache(r.cache) && WellFormedCache(folderMap')
    ensures forall k :: k in folderMap ==> k in folderMap'
    ensures q' == q + Taken(api, KidItems(ch, pid))
    // every child taken is mapped
    ensures forall j :: |q| <= j < |q'| ==> q'[j] in folderMap'
  {
    var pages := PagesOf(ch, pid);
    var path := parentPath;
    folderMap', q' := folderMap, q;
    ghost var done: seq<ListItem> := [];
    ghost var all := ReadItems(pages, 0, false);
    assert [] + all == all;
    var k := 0;
    var more := true;
    while more
      invariant k <= |pages|
      invariant more ==> done + ReadItems(pages, k, false) == all
      invariant !more ==> done == all
      invariant WellFormedCache(r.cache) && WellFormedCache(folderMap')
      invariant path == "" || WellFormedPath(path)
      invariant forall k :: k in folderMap ==> k in folderMap'
      invariant q' == q + Taken(api, done)
      invariant forall j :: |q| <= j < |q'| ==> q'[j] in folderMap'
      decreases |pages| - k, more
    {
      if k == |pages| || pages[k].PageFailed? {
        ItemsStop(pages, k, done, all);
        more := false;
      } else {
        ItemsAdvance(pages, k, done, all);
        TakenExtend(api, q, done, pages[k].items);
        path, folderMap', q' := AddPage(api, r, pid, pages[k].items, path, folderMap', q', rank);
        done := done + pages[k].items;
        if pages[k].hasMore {
          k := k + 1;
        } else {
          more := false;
        }
      }
    }
  }

  /** A root resolved non-strictly with `fallback`: the walk only needs the path to be well-formed. */
  method ResolveRoot(api: FolderApi, r: FolderResolver, fid: int, fallback: string, ghost rank: int -> nat)
    returns (path: string)
    requires Ranked(api, rank) && WellFormedCache(r.cache) && fid != 0
    modifies r
    ensures WellFormedPath(path) && WellFormedCache(r.cache)
    ensures fid in api ==> fid in r.cache && r.cache[fid] == path
  {
    path := ResolveListed(api, r, fid, fallback, rank);
  }

  /** The roots loop of the main branch: every root resolved (non-strict, with `fallback`), mapped
      to its path and queued, in order. */
  method MapRoots(api: FolderApi, r: FolderResolver, roots: seq<int>, fallback: string, ghost rank: int -> nat)
    returns (folderMap: map<int, string>, q: seq<int>)
    requires Ranked(api, rank) && WellFormedCache(r.cache)
    requires forall i :: 0 <= i < |roots| ==> roots[i] != 0
    modifies r
    ensures WellFormedCache(folderMap) && WellFormedCache(r.cache)
    ensures folderMap.Keys == set i | 0 <= i < |roots| :: roots[i]
    ensures q == roots
  {
    folderMap := map[];
    q := [];
    for i := 0 to |roots|
      invariant WellFormedCache(folderMap) && WellFormedCache(r.cache)
      invariant folderMap.Keys == set j | 0 <= j < i :: roots[j]
      invariant q == roots[..i]
    {
      var path := ResolveRoot(api, r, roots[i], fallback, rank);
      WellFormedCacheAdd(folderMap, roots[i], path);
      folderMap := folderMap[roots[i] := path];
      q := q + [roots[i]];
      assert roots[..i + 1] == roots[..i] + [roots[i]];
      assert (set j | 0 <= j < i + 1 :: roots[j]) == (set j | 0 <= j < i :: roots[j]) + {roots[i]};
    }
    assert roots[..|roots|] == roots;
  }

  /** What the queue loop knows: every queued folder is mapped, every dequeued folder (`reached`)
      is mapped, each folder first queued is dequeued or still queued, and so is every child taken
      from a dequeued folder. */
  ghost predicate Drained(api: FolderApi, ch: ChildListings, q0: seq<int>, reached: set<int>, q: seq<int>,
                          folderMap: map<int, string>)
  {
    && (forall x :: x in Elems(q) ==> x in folderMap)
    && (forall f :: f in reached ==> f in folderMap)
    && (forall x :: x in Elems(q0) ==> x in reached || x in Elems(q))
    && (forall f, c :: f in reached && c in Elems(Taken(api, KidItems(ch, f))) ==> c in reached || c in Elems(q))
  }

  lemma DrainStart(api: FolderApi, ch: ChildListings, q0: seq<int>, folderMap: map<int, string>)
    requires forall i :: 0 <= i < |q0| ==> q0[i] in folderMap
    ensures Drained(api, ch, q0, {}, q0, folderMap)
  {
    ElemsMembers(q0);
  }

  /** Dequeuing `q[0]` and queueing the children taken from it, all of them mapped, keeps the
      loop's knowledge with `q[0]` dequeued. */
  lemma DrainStep(api: FolderApi, ch: ChildListings, q0: seq<int>, reached: set<int>, q: seq<int>,
                  folderMap: map<int, string>, q': seq<int>, folderMap': map<int, string>)
    requires Drained(api, ch, q0, reached, q, folderMap) && q != []
    requires forall k :: k in folderMap ==> k in folderMap'
    requires q' == q[1..] + Taken(api, KidItems(ch, q[0]))
    requires forall j :: |q[1..]| <= j < |q'| ==> q'[j] in folderMap'
    ensures Drained(api, ch, q0, reached + {q[0]}, q', folderMap')
  {
    var kids := Taken(api, KidItems(ch, q[0]));
    ElemsCons(q);
    ElemsAppend(q[1..], kids);
    forall c | c in Elems(kids)
      ensures c in folderMap'
    {
      ElemsMembers(kids);
      var i :| 0 <= i < |kids| && kids[i] == c;
      assert q'[|q[1..]| + i] == c;
    }
  }

  lemma DrainDone(api: FolderApi, ch: ChildListings, q0: seq<int>, reached: set<int>, folderMap: map<int, string>)
    requires Drained(api, ch, q0, reached, [], folderMap)
    ensures forall x :: x in Elems(q0) ==> x in reached
    ensures forall f, c :: f in reached && c in Elems(Taken(api, KidItems(ch, f))) ==> c in reached
    ensures forall f :: f in reached ==> f in folderMap
  {
  }

  /** One round of the queue loop: pop `q[0]`, then map and queue its children under its path. The
      loop's knowledge holds with `q[0]` dequeued, and the queue's weight drops. */
  method DrainOne(api: FolderApi, ch: ChildListings, r: FolderResolver, ghost q0: seq<int>, ghost reached: set<int>,
                  q: seq<int>, folderMap: map<int, string>, ghost rank: int -> nat, ghost crank: int -> nat)
    returns (folderMap': map<int, string>, q': seq<int>)
    requires Ranked(api, rank) && KidsRanked(ch, crank) && WellFormedCache(r.cache) && WellFormedCache(folderMap)
    requires q != [] && forall j :: 0 <= j < |q| ==> q[j] != 0
    requires Drained(api, ch, q0, reached, q, folderMap)
    modifies r
    ensures WellFormedCache(folderMap') && WellFormedCache(r.cache)
    ensures forall k :: k in folderMap ==> k in folderMap'
    ensures forall j :: 0 <= j < |q'| ==> q'[j] != 0
    ensures Drained(api, ch, q0, reached + {q[0]}, q', folderMap')
    ensures Work(ch, crank, q') < Work(ch, crank, q)
  {
    WorkCons(ch, crank, q);
    var pid := q[0];
    var rest := q[1..];
    var parentPath := MapGet(folderMap, pid, "");
    folderMap', q' := AddChildren(api, ch, r, pid, parentPath, folderMap, rest, rank);
    DrainStep(api, ch, q0, reached, q, folderMap, q', folderMap');
    WorkAppend(ch, crank, rest, Taken(api, KidItems(ch, pid)));
    TakenWeight(api, ch, crank, KidItems(ch, pid));
    SizeUnfold(ch, crank, pid);
  }

  /** The queue loop of the main branch: pop a folder and map and queue its children under its
      path, with no visited set; the map only gains keys. Ends because the listings form a finite
      tree. `reached` is the set of folders dequeued: it holds the first queue, it is closed under
      the children taken, and all of it is mapped. */
  method DrainQueue(api: FolderApi, ch: ChildListings, r: FolderResolver, folderMap0: map<int, string>,
                    q0: seq<int>, ghost rank: int -> nat, ghost crank: int -> nat)
    returns (folderMap: map<int, string>, ghost reached: set<int>)
    requires Ranked(api, rank) && KidsRanked(ch, crank) && WellFormedCache(r.cache) && WellFormedCache(folderMap0)
    requires forall i :: 0 <= i < |q0| ==> q0[i] != 0 && q0[i] in folderMap0
    modifies r
    ensures WellFormedCache(folderMap) && WellFormedCache(r.cache)
    ensures forall k :: k in folderMap0 ==> k in folderMap
    ensures forall x :: x in Elems(q0) ==> x in reached
    ensures forall f, c :: f in reached && c in Elems(Taken(api, KidItems(ch, f))) ==> c in reached
    ensures forall f :: f in reached ==> f in folderMap
  {
    folderMap := folderMap0;
    reached := {};
    var q := q0;
    DrainStart(api, ch, q0, folderMap0);
    while q != []
      invariant WellFormedCache(folderMap) && WellFormedCache(r.cache)
      invariant forall k :: k in folderMap0 ==> k in folderMap
      invariant forall j :: 0 <= j < |q| ==> q[j] != 0
      invariant Drained(api, ch, q0, reached, q, folderMap)
      decreases Work(ch, crank, q)
    {
      ghost var pid := q[0];
      folderMap, q := DrainOne(api, ch, r, q0, reached, q, folderMap, rank, crank);
      reached := reached + {pid};
    }
    DrainDone(api, ch, q0, reached, folderMap);
  }

  /** The folders the main branch reaches from `roots`: every root, and every child taken from a
      folder it reaches. */
  ghost predicate TreeClosed(api: FolderApi, ch: ChildListings, roots: seq<int>, reached: set<int>) {
    && (forall i :: 0 <= i < |roots| ==> roots[i] in reached)
    && (forall f, c :: f in reached && c in Elems(Taken(api, KidItems(ch, f))) ==> c in reached)
  }

  /** The main branch of `fetch_complete_folder_structure`: the roots, then the queue. Every root,
      and every child taken from a folder the walk reaches, ends up in the map, and every path in it
      is well-formed. */
  method WalkTree(api: FolderApi, ch: ChildListings, r: FolderResolver, roots: seq<int>, fallback: string,
                  ghost rank: int -> nat, ghost crank: int -> nat)
    returns (folderMap: map<int, string>, ghost reached: set<int>)
    requires Ranked(api, rank) && KidsRanked(ch, crank) && WellFormedCache(r.cache)
    requires forall i :: 0 <= i < |roots| ==> roots[i] != 0
    modifies r
    ensures WellFormedCache(folderMap) && WellFormedCache(r.cache)
    ensures forall i :: 0 <= i < |roots| ==> roots[i] in folderMap
    ensures TreeClosed(api, ch, roots, reached) && reached <= folderMap.Keys
  {
    var m, q := MapRoots(api, r, roots, fallback, rank);
    forall i | 0 <= i < |q| ensures q[i] != 0 && q[i] in m {
      assert q[i] == roots[i];
    }
    folderMap, reached := DrainQueue(api, ch, r, m, q, rank, crank);
    ElemsMembers(roots);
    forall i | 0 <= i < |roots| ensures roots[i] in folderMap && roots[i] in reached {
      assert roots[i] in m;
      assert roots[i] in Elems(q);
    }
    forall f | f in reached ensures f in folderMap.Keys {
    }
  }

  /** One folder id of the fallback loop: resolved non-strictly with the loop's own entry for it
      (`cache.get(fid) or fallback`) as the fallback name. */
  method MapDocFolder(api: FolderApi, r: FolderResolver, fid: int, seeds: map<int, string>, fallback: string,
                      ghost rank: int -> nat, ghost fb: string)
    returns (path: string)
    requires Ranked(api, rank) && WellFormedCache(r.cache) && fid != 0 && fid !in seeds && Sanitize(fallback) == fb
    modifies r
    ensures WellFormedPath(path) && WellFormedCache(r.cache)
    ensures path == fb || (fid in r.cache && r.cache[fid] == path)
    ensures fid in api ==> fid in r.cache && r.cache[fid] == path
    ensures Extends(r.cache, old(r.cache))
  {
    var given := MapGet(seeds, fid, "");
    if given == "" {
      given := fallback;
    }
    path := ResolveListed(api, r, fid, given, rank);
  }

  /** Every mapped path is the resolver's cached path for that folder, or `fbPath`. */
  ghost predicate FromResolver(folderMap: map<int, string>, cache: map<int, string>, fbPath: string) {
    forall k :: k in folderMap ==> folderMap[k] == fbPath || (k in cache && cache[k] == folderMap[k])
  }

  /** Every mapped folder that can be fetched is mapped to its cached path. */
  ghost predicate FetchedCached(api: FolderApi, folderMap: map<int, string>, cache: map<int, string>) {
    forall k :: k in folderMap && k in api ==> k in cache && cache[k] == folderMap[k]
  }

  /** One more folder mapped by the fallback loop keeps both facts. */
  lemma MapDocStep(api: FolderApi, folderMap: map<int, string>, cache0: map<int, string>, cache: map<int, string>,
                   fid: int, path: string, fbPath: string)
    requires FromResolver(folderMap, cache0, fbPath) && FetchedCached(api, folderMap, cache0)
    requires Extends(cache, cache0)
    requires path == fbPath || (fid in cache && cache[fid] == path)
    requires fid in api ==> fid in cache && cache[fid] == path
    ensures FromResolver(folderMap[fid := path], cache, fbPath)
    ensures FetchedCached(api, folderMap[fid := path], cache)
  {
    forall k | k in folderMap[fid := path]
      ensures folderMap[fid := path][k] == fbPath || (k in cache && cache[k] == folderMap[fid := path][k])
    {
      if k != fid && folderMap[k] != fbPath {
        assert k in cache0;
      }
    }
    forall k | k in folderMap[fid := path] && k in api
      ensures k in cache && cache[k] == folderMap[fid := path][k]
    {
      if k != fid {
        assert k in cache0;
      }
    }
  }

  /** The fallback branch: each distinct folder id the documents name is resolved (non-strict) with
      the loop's own cache entry or `fallback`, and mapped to the path. The map covers exactly those
      ids; a path is the resolver's cached one, or the sanitized fallback for a folder that cannot
      be fetched. */
  method MapDocFolders(api: FolderApi, r: FolderResolver, fids: set<int>, fallback: string,
                       ghost rank: int -> nat, ghost fb: string)
    returns (folderMap: map<int, string>)
    requires Ranked(api, rank) && WellFormedCache(r.cache) && 0 !in fids && Sanitize(fallback) == fb
    modifies r
    ensures folderMap.Keys == fids
    ensures WellFormedCache(folderMap) && WellFormedCache(r.cache)
    ensures FromResolver(folderMap, r.cache, fb) && FetchedCached(api, folderMap, r.cache)
  {
    folderMap := map[];
    var seeds: map<int, string> := map[];
    var todo := fids;
    while todo != {}
      invariant todo <= fids && folderMap.Keys == fids - todo && seeds == folderMap
      invariant WellFormedCache(folderMap) && WellFormedCache(r.cache)
      invariant FromResolver(folderMap, r.cache, fb) && FetchedCached(api, folderMap, r.cache)
      decreases |todo|
    {
      var fid := Pick(todo);
      todo := todo - {fid};
      ghost var cache0 := r.cache;
      var path := MapDocFolder(api, r, fid, seeds, fallback, rank, fb);
      WellFormedCacheAdd(folderMap, fid, path);
      MapDocStep(api, folderMap, cache0, r.cache, fid, path, fb);
      folderMap := folderMap[fid := path];
      seeds := seeds[fid := path];
    }
  }

  /** What `fetch_complete_folder_structure` returns: well-formed paths; every listed root mapped;
      with roots, every folder reached from them through the children taken mapped too; with no root
      listed, nothing when the documents could not be listed, and otherwise exactly the
      documents' folder ids, each mapped to its cached path or to `fbPath`, and to its cached path
      when the folder can be fetched. */
  ghost predicate CompleteStructure(api: FolderApi, ch: ChildListings, rootPages: Listing, docs: Option<seq<Doc>>,
                                    folderMap: map<int, string>, cache: map<int, string>, fbPath: string,
                                    reached: set<int>) {
    && WellFormedCache(folderMap)
    && (forall x :: x in ListedIds(rootPages, false) ==> x in folderMap)
    && (ListedIds(rootPages, false) != [] ==>
          TreeClosed(api, ch, ListedIds(rootPages, false), reached) && reached <= folderMap.Keys)
    && (ListedIds(rootPages, false) == [] && docs.None? ==> folderMap == map[])
    && (ListedIds(rootPages, false) == [] && docs.Some? ==>
          folderMap.Keys == DocFolderIds(docs.value)
          && FromResolver(folderMap, cache, fbPath) && FetchedCached(api, folderMap, cache))
  }

  /** `fetch_complete_folder_structure` with the fallback name as a parameter: the roots are read
      from every page until a failed request or a page without `hasMore`; with at least one root the
      tree walk builds the map, otherwise the folder ids of the project's documents do (`docs` is
      what `fetch_all_documents` returned, `None` when it failed, and the map is then empty). */
  method FetchStructure(api: FolderApi, rootPages: Listing, ch: ChildListings, docs: Option<seq<Doc>>,
                        r: FolderResolver, fallback: string, ghost fb: string,
                        ghost rank: int -> nat, ghost crank: int -> nat)
    returns (folderMap: map<int, string>, ghost reached: set<int>)
    requires Ranked(api, rank) && KidsRanked(ch, crank) && WellFormedCache(r.cache) && Sanitize(fallback) == fb
    modifies r
    ensures WellFormedCache(r.cache) && CompleteStructure(api, ch, rootPages, docs, folderMap, r.cache, fb, reached)
  {
    reached := {};
    var roots := FetchRootFolders(rootPages);
    if roots != [] {
      folderMap, reached := WalkTree(api, ch, r, roots, fallback, rank, crank);
      forall x | x in roots ensures x in folderMap {
        var i :| 0 <= i < |roots| && roots[i] == x;
      }
    } else if docs.None? {
      folderMap := map[];
    } else {
      folderMap := MapDocFolders(api, r, DocFolderIds(docs.value), fallback, rank, fb);
    }
  }

  /** `fetch_complete_folder_structure`, whose fallback folder name is `"Documents"`. */
  method FetchCompleteFolderStructure(api: FolderApi, rootPages: Listing, ch: ChildListings,
                                      docs: Option<seq<Doc>>, r: FolderResolver,
                                      ghost rank: int -> nat, ghost crank: int -> nat)
    returns (folderMap: map<int, string>, ghost reached: set<int>)
    requires Ranked(api, rank) && KidsRanked(ch, crank) && WellFormedCache(r.cache)
    modifies r
    ensures WellFormedCache(r.cache) && CompleteStructure(api, ch, rootPages, docs, folderMap, r.cache, "Documents", reached)
  {
    DocumentsIsTidy();
    folderMap, reached := FetchStructure(api, rootPages, ch, docs, r, "Documents", "Documents", rank, crank);
  }
}
