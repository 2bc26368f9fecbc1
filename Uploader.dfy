/** The command-line uploader's folder resolution: paging through a folder's children, guessing the
    project's root folder, walking a sub-path case-insensitively, the ordered fallbacks tried when
    the walk fails, and the exit code or folder the run ends with. */
module Uploader {
  import opened Wrappers
  import opened Text
  import opened Json

  /** The number of children asked for per page. */
  const PageSize: nat := 500

  /** The children endpoint: the items of the page of a folder starting at an offset. The same page
      asked twice answers the same (the source caches it). */
  type Pages = (int, nat) -> seq<Object>

  /** The `k`th page of `folder` is short (possibly empty), so the listing stops there. */
  predicate ShortPageAt(pages: Pages, folder: int, k: nat) {
    |pages(folder, PageSize * k)| < PageSize
  }

  /** The listing of `folder` comes to an end. */
  ghost predicate Ends(pages: Pages, folder: int) {
    exists k: nat :: ShortPageAt(pages, folder, k)
  }

  /** Every folder's listing comes to an end. */
  ghost predicate Finite(pages: Pages) {
    forall folder :: Ends(pages, folder)
  }

  /** The pages of `folder` from the `k`th on, concatenated up to the first empty or short one;
      `fuel` bounds the number of pages read. */
  function Listing(pages: Pages, folder: int, k: nat, fuel: nat): seq<Object>
    decreases fuel
  {
    if fuel == 0 then []
    else
      var page := pages(folder, PageSize * k);
      if page == [] then []
      else if |page| < PageSize then page
      else page + Listing(pages, folder, k + 1, fuel - 1)
  }

  /** Once a short page lies within reach, more fuel reads nothing more. */
  lemma {:induction false} ListingStable(pages: Pages, folder: int, k: nat, n: nat, fuel1: nat, fuel2: nat)
    requires ShortPageAt(pages, folder, n) && k <= n
    requires fuel1 > n - k && fuel2 > n - k
    ensures Listing(pages, folder, k, fuel1) == Listing(pages, folder, k, fuel2)
    decreases n - k
  {
    if |pages(folder, PageSize * k)| >= PageSize {
      assert k != n;
      ListingStable(pages, folder, k + 1, n, fuel1 - 1, fuel2 - 1);
    }
  }

  /** All children of `folder`, in page order. */
  ghost function Children(pages: Pages, folder: int): seq<Object>
    requires Ends(pages, folder)
  {
    var n: nat :| ShortPageAt(pages, folder, n);
    Listing(pages, folder, 0, n + 1)
  }

  /** Whichever short page is taken as the end, the children are the same. */
  lemma ChildrenAt(pages: Pages, folder: int, n: nat)
    requires ShortPageAt(pages, folder, n)
    ensures Children(pages, folder) == Listing(pages, folder, 0, n + 1)
  {
    var n0: nat :| ShortPageAt(pages, folder, n0) && Children(pages, folder) == Listing(pages, folder, 0, n0 + 1);
    var m := if n <= n0 then n else n0;
    ListingStable(pages, folder, 0, m, n + 1, n0 + 1);
  }

  /** `x` is an item of the `k`th page of `folder`. */
  predicate OnPage(pages: Pages, folder: int, k: nat, x: Object) {
    x in pages(folder, PageSize * k)
  }

  /** Every item of a listing comes from one of the pages read. */
  lemma {:induction false} ListingFromPages(pages: Pages, folder: int, k: nat, fuel: nat, x: Object)
    requires x in Listing(pages, folder, k, fuel)
    ensures exists i: nat :: k <= i && OnPage(pages, folder, i, x)
    decreases fuel
  {
    var page := pages(folder, PageSize * k);
    if x in page {
      assert OnPage(pages, folder, k, x);
    } else {
      ListingFromPages(pages, folder, k + 1, fuel - 1, x);
    }
  }

  /** `list_children`: reads pages of 500 until an empty page or one shorter than 500. */
  method ListChildren(pages: Pages, folder: int) returns (items: seq<Object>)
    requires Ends(pages, folder)
    ensures items == Children(pages, folder)
  {
    ghost var n: nat :| ShortPageAt(pages, folder, n);
    items := [];
    var off := 0;
    ghost var k: nat := 0;
    var more := true;
    while more
      invariant off == PageSize * k && k <= n
      invariant more ==> items + Listing(pages, folder, k, n + 1 - k) == Listing(pages, folder, 0, n + 1)
      invariant !more ==> items == Listing(pages, folder, 0, n + 1)
      decreases n - k, more
    {
      var page := pages(folder, off);
      if page == [] {
        more := false;
      } else if |page| < PageSize {
        items := items + page;
        more := false;
      } else {
        assert k != n;
        assert Listing(pages, folder, k, n + 1 - k) == page + Listing(pages, folder, k + 1, n - k);
        items := items + page;
        off := off + PageSize;
        k := k + 1;
      }
    }
    ChildrenAt(pages, folder, n);
  }

  /** The parent id one item of the project's folder list gives: the truthy `native` of its
      `parentId`, as an int. */
  function ParentOf(item: Object): Option<int> {
    match Native(Get(item, "parentId"))
    case Some(p) => if Truthy(p) then IntOf(p) else None
    case None => None
  }

  /** The parent ids of the items, in order, leaving out the items without one. */
  function ParentIds(items: seq<Object>): (ps: seq<int>)
    ensures forall x :: x in ps <==> exists i :: 0 <= i < |items| && ParentOf(items[i]) == Some(x)
  {
    if items == [] then []
    else
      var rest := ParentIds(items[1..]);
      assert forall i :: 0 < i < |items| ==> items[i] == items[1..][i - 1];
      match ParentOf(items[0])
      case Some(p) => [p] + rest
      case None => rest
  }

  /** The parent ids are collected in item order: those of a concatenation are those of each
      part, one after the other. */
  lemma {:induction false} ParentIdsAppend(a: seq<Object>, b: seq<Object>)
    ensures ParentIds(a + b) == ParentIds(a) + ParentIds(b)
    decreases |a|
  {
    if a != [] {
      assert (a + b)[0] == a[0] && (a + b)[1..] == a[1..] + b;
      ParentIdsAppend(a[1..], b);
      var head := if ParentOf(a[0]).Some? then [ParentOf(a[0]).value] else [];
      assert ParentIds(a) == head + ParentIds(a[1..]);
      assert ParentIds(a + b) == head + (ParentIds(a[1..]) + ParentIds(b));
    } else {
      assert a + b == b;
    }
  }

  /** One item contributes its parent id, if it has one. */
  lemma ParentIdsOne(item: Object)
    ensures ParentIds([item]) == if ParentOf(item).Some? then [ParentOf(item).value] else []
  {
    assert [item][1..] == [];
  }

  /** How often `x` occurs in `s`. */
  function Count(s: seq<int>, x: int): nat {
    multiset(s)[x]
  }

  /** Position `m` holds a value occurring at least as often as every value among the first `upto`,
      and strictly more often than every value before it. */
  predicate Leads(s: seq<int>, m: nat, upto: nat)
    requires m < |s| && upto <= |s|
  {
    (forall j :: 0 <= j < upto ==> Count(s, s[j]) <= Count(s, s[m]))
    && (forall j :: 0 <= j < m ==> Count(s, s[j]) < Count(s, s[m]))
  }

  /** The scan behind `Counter(s).most_common(1)`: a later value replaces the leader only when it
      occurs strictly more often. */
  function LeaderFrom(s: seq<int>, i: nat, m: nat): (r: nat)
    requires m < i <= |s| && Leads(s, m, i)
    ensures m <= r < |s| && Leads(s, r, |s|)
    decreases |s| - i
  {
    if i == |s| then m
    else if Count(s, s[i]) > Count(s, s[m]) then LeaderFrom(s, i + 1, i)
    else LeaderFrom(s, i + 1, m)
  }

  /** `Counter(s).most_common(1)[0][0]`, or `None` for an empty `s`: a most frequent value, the one
      seen first among those tied. */
  function MostCommon(s: seq<int>): (r: Option<int>)
    ensures r.None? <==> s == []
    ensures r.Some? ==> r.value in s && forall x :: x in s ==> Count(s, x) <= Count(s, r.value)
    ensures r.Some? ==> forall j :: 0 <= j < |s| && Count(s, s[j]) == Count(s, r.value) ==> r.value in s[..j + 1]
  {
    if s == [] then None
    else
      var m := LeaderFrom(s, 1, 0);
      assert forall j :: 0 <= j < |s| && Count(s, s[j]) == Count(s, s[m]) ==> s[..j + 1][m] == s[m];
      Some(s[m])
  }

  /** `guess_project_root_id`: the most frequent parent id of the project's folders (`items`, the
      first page of the folder list), ties going to the one seen first; `None` when no folder names
      a parent. */
  function GuessProjectRootId(items: seq<Object>): (r: Option<int>)
    ensures r.None? <==> forall i :: 0 <= i < |items| ==> ParentOf(items[i]).None?
    ensures r.Some? ==> exists i :: 0 <= i < |items| && ParentOf(items[i]) == r
    // the most frequent parent id, ties going to the one seen first
    ensures r.Some? ==> var ps := ParentIds(items);
      (forall x :: x in ps ==> Count(ps, x) <= Count(ps, r.value)) &&
      (forall j :: 0 <= j < |ps| && Count(ps, ps[j]) == Count(ps, r.value) ==> r.value in ps[..j + 1])
  {
    MostCommon(ParentIds(items))
  }

  /** A child's `name`, or `""` when it has none. */
  function NameOf(child: Object): string {
    var n := Get(child, "name");
    if n.JStr? then n.s else ""
  }

  /** The folder `child` stands for when its lower-cased name is `target`: its truthy
      `folderId.native`, as an int. */
  function ChildFolder(child: Object, target: string): Option<int> {
    match Native(Get(child, "folderId"))
    case Some(c) => if Truthy(c) && Lower(NameOf(child)) == target then IntOf(c) else None
    case None => None
  }

  /** The position of the first child at or after `i` that stands for a folder named `target`;
      `|kids|` when there is none. */
  function MatchFrom(kids: seq<Object>, target: string, i: nat): (k: nat)
    requires i <= |kids|
    ensures i <= k <= |kids|
    ensures forall j :: i <= j < k ==> ChildFolder(kids[j], target).None?
    ensures k < |kids| ==> ChildFolder(kids[k], target).Some?
    decreases |kids| - i
  {
    if i == |kids| || ChildFolder(kids[i], target).Some? then i else MatchFrom(kids, target, i + 1)
  }

  /** The folder of the first child named `target`. */
  function FirstMatch(kids: seq<Object>, target: string): (r: Option<int>)
    ensures r.None? <==> forall j :: 0 <= j < |kids| ==> ChildFolder(kids[j], target).None?
    ensures r.Some? ==> exists k :: 0 <= k < |kids| && r == ChildFolder(kids[k], target)
                                    && forall j :: 0 <= j < k ==> ChildFolder(kids[j], target).None?
  {
    var k := MatchFrom(kids, target, 0);
    if k < |kids| then ChildFolder(kids[k], target) else None
  }

  /** The scan over one folder's children for the segment being resolved. */
  method FindChild(kids: seq<Object>, target: string) returns (found: Option<int>)
    ensures found == FirstMatch(kids, target)
  {
    found := None;
    var i := 0;
    while i < |kids| && found.None?
      invariant 0 <= i <= |kids|
      invariant found.None? ==> forall j :: 0 <= j < i ==> ChildFolder(kids[j], target).None?
      invariant found.Some? ==> 0 < i && found == ChildFolder(kids[i - 1], target)
                                && forall j :: 0 <= j < i - 1 ==> ChildFolder(kids[j], target).None?
    {
      found := ChildFolder(kids[i], target);
      i := i + 1;
    }
    if found.Some? {
      assert MatchFrom(kids, target, 0) == i - 1;
    }
  }

  /** The segments of a sub-path: backslashes read as slashes, split at slashes, empty pieces
      dropped. */
  function PathSegments(subpath: string): (segs: seq<string>)
    ensures forall i :: 0 <= i < |segs| ==> segs[i] != "" && '/' !in segs[i]
  {
    var pieces := Split(Replace(subpath, '\\', '/'), '/');
    var segs := NonEmpty(pieces);
    assert forall i :: 0 <= i < |segs| ==> segs[i] in pieces;
    segs
  }

  /** Where walking `segs` down from `current` leads: at each step the first child whose lower-cased
      name is the lower-cased segment; `None` as soon as a segment matches no child. */
  ghost function Walk(pages: Pages, current: int, segs: seq<string>): Option<int>
    requires Finite(pages)
    decreases |segs|
  {
    if segs == [] then Some(current)
    else
      match FirstMatch(Children(pages, current), Lower(segs[0]))
      case None => None
      case Some(next) => Walk(pages, next, segs[1..])
  }

  /** The folder a sub-path names under `root`. */
  ghost function UnderRoot(pages: Pages, root: int, subpath: string): Option<int>
    requires Finite(pages)
  {
    Walk(pages, root, PathSegments(subpath))
  }

  /** Where the walk goes on from `r` with `t`: nowhere when it already failed. */
  ghost function WalkOn(pages: Pages, r: Option<int>, t: seq<string>): Option<int>
    requires Finite(pages)
  {
    match r
    case None => None
    case Some(f) => Walk(pages, f, t)
  }

  /** Walking `s + t` is walking `s`, then `t` from where `s` led. */
  lemma {:induction false} WalkAppend(pages: Pages, current: int, s: seq<string>, t: seq<string>)
    requires Finite(pages)
    ensures Walk(pages, current, s + t) == WalkOn(pages, Walk(pages, current, s), t)
    decreases |s|
  {
    if s == [] {
      assert s + t == t;
    } else {
      assert (s + t)[1..] == s[1..] + t;
      assert (s + t)[0] == s[0];
      var m := FirstMatch(Children(pages, current), Lower(s[0]));
      if m.Some? {
        WalkAppend(pages, m.value, s[1..], t);
      }
    }
  }

  /** The walk ignores case: segments equal once lower-cased lead to the same folder. */
  lemma {:induction false} WalkIgnoresCase(pages: Pages, current: int, s: seq<string>, t: seq<string>)
    requires Finite(pages)
    requires |s| == |t| && forall i :: 0 <= i < |s| ==> Lower(s[i]) == Lower(t[i])
    ensures Walk(pages, current, s) == Walk(pages, current, t)
    decreases |s|
  {
    if s != [] {
      match FirstMatch(Children(pages, current), Lower(s[0]))
      case None =>
      case Some(next) => WalkIgnoresCase(pages, next, s[1..], t[1..]);
    }
  }

  /** Splitting a string of separators gives only empty pieces. */
  lemma {:induction false} SplitSeparators(s: string, sep: char)
    requires forall i :: 0 <= i < |s| ==> s[i] == sep
    ensures forall i :: 0 <= i < |Split(s, sep)| ==> Split(s, sep)[i] == ""
  {
    if s != [] {
      SplitSeparators(s[1..], sep);
    }
  }

  /** Only empty pieces leave no segment. */
  lemma {:induction false} NonEmptyOfEmpties(parts: seq<string>)
    requires forall i :: 0 <= i < |parts| ==> parts[i] == ""
    ensures NonEmpty(parts) == []
  {
    if parts != [] {
      NonEmptyOfEmpties(parts[1..]);
    }
  }

  /** A sub-path that is empty or made only of slashes and backslashes names the root itself. */
  lemma SeparatorsNameRoot(pages: Pages, root: int, subpath: string)
    requires Finite(pages)
    requires forall i :: 0 <= i < |subpath| ==> subpath[i] == '/' || subpath[i] == '\\'
    ensures UnderRoot(pages, root, subpath) == Some(root)
  {
    var slashes := Replace(subpath, '\\', '/');
    assert forall i :: 0 <= i < |slashes| ==> slashes[i] == '/';
    SplitSeparators(slashes, '/');
    NonEmptyOfEmpties(Split(slashes, '/'));
  }

  /** `resolve_under_root`: the folder `subpath` names under `root`, segment by segment. */
  method ResolveUnderRoot(pages: Pages, root: int, subpath: string) returns (fid: Option<int>)
    requires Finite(pages)
    ensures fid == UnderRoot(pages, root, subpath)
  {
    if subpath == "" {
      return Some(root);
    }
    var segs := PathSegments(subpath);
    var current := root;
    var i := 0;
    while i < |segs|
      invariant 0 <= i <= |segs|
      invariant Walk(pages, root, segs) == Walk(pages, current, segs[i..])
    {
      var kids := ListChildren(pages, current);
      var found := FindChild(kids, Lower(segs[i]));
      if found.None? {
        return None;
      }
      assert segs[i..][1..] == segs[i + 1..];
      current := found.value;
      i := i + 1;
    }
    return Some(current);
  }

  /** The names of the root's tiles, stripped of surrounding whitespace. */
  function TileNames(kids: seq<Object>): seq<string> {
    seq(|kids|, i requires 0 <= i < |kids| => Strip(NameOf(kids[i]), Whitespace))
  }

  /** Some name of `names` is `lowered` once lower-cased. */
  predicate HasTile(names: seq<string>, lowered: string) {
    exists i :: 0 <= i < |names| && Lower(names[i]) == lowered
  }

  /** `<tile>/<subpath>` for each tile whose lower-cased name contains `token`, in tile order. */
  function DocTiles(names: seq<string>, subpath: string, token: string): seq<string> {
    if names == [] then []
    else (if Contains(Lower(names[0]), token) then [names[0] + "/" + subpath] else []) + DocTiles(names[1..], subpath, token)
  }

  /** The fallbacks after the sub-path itself, for the folder `folder` (lower-cased `lowered`) and
      the tile token `token`: `<folder>/<subpath>` when a tile is named `lowered` and the sub-path
      does not already start with `<lowered>/`; the sub-path without that leading folder (its first
      slash then follows the folder name, which is where `split('/', 1)[1]` starts); then each
      tile containing `token` in front of it. */
  function Fallbacks(subpath: string, names: seq<string>, lowered: string, folder: string, token: string): seq<string> {
    var underFolder := StartsWith(Lower(subpath), lowered + "/");
    (if HasTile(names, lowered) && !underFolder then [folder + "/" + subpath] else [])
    + ((if underFolder then [subpath[|lowered| + 1..]] else [])
    + DocTiles(names, subpath, token))
  }

  /** The sub-paths `resolve_smart_path` tries, in order: the sub-path itself, then the fallbacks
      for the `Documents` folder and the `doc` tiles. */
  function Variants(subpath: string, names: seq<string>): seq<string> {
    [subpath] + Fallbacks(subpath, names, "documents", "Documents", "doc")
  }

  /** The first of the sub-paths `vs` that names a folder under `root`. */
  ghost function FirstResolved(pages: Pages, root: int, vs: seq<string>): Option<int>
    requires Finite(pages)
    decreases |vs|
  {
    if vs == [] then None
    else if UnderRoot(pages, root, vs[0]).Some? then UnderRoot(pages, root, vs[0])
    else FirstResolved(pages, root, vs[1..])
  }

  /** The fallbacks are tried in order: the result is `None` exactly when no sub-path resolves, and
      otherwise what the first one that resolves names. */
  lemma {:induction false} FirstResolvedMeans(pages: Pages, root: int, vs: seq<string>)
    requires Finite(pages)
    ensures FirstResolved(pages, root, vs).None? <==> forall i :: 0 <= i < |vs| ==> UnderRoot(pages, root, vs[i]).None?
    ensures FirstResolved(pages, root, vs).Some? ==>
              exists k :: 0 <= k < |vs| && FirstResolved(pages, root, vs) == UnderRoot(pages, root, vs[k])
                          && forall j :: 0 <= j < k ==> UnderRoot(pages, root, vs[j]).None?
    decreases |vs|
  {
    if vs != [] && UnderRoot(pages, root, vs[0]).None? {
      FirstResolvedMeans(pages, root, vs[1..]);
      assert forall i :: 0 < i < |vs| ==> vs[i] == vs[1..][i - 1];
      if FirstResolved(pages, root, vs).Some? {
        var k :| 0 <= k < |vs[1..]| && FirstResolved(pages, root, vs) == UnderRoot(pages, root, vs[1..][k])
                 && forall j :: 0 <= j < k ==> UnderRoot(pages, root, vs[1..][j]).None?;
        assert FirstResolved(pages, root, vs) == UnderRoot(pages, root, vs[k + 1]);
      }
    }
  }

  /** Trying `x` first, then `rest`. */
  lemma FirstResolvedCons(pages: Pages, root: int, x: string, rest: seq<string>)
    requires Finite(pages)
    ensures FirstResolved(pages, root, [x] + rest)
         == if UnderRoot(pages, root, x).Some? then UnderRoot(pages, root, x) else FirstResolved(pages, root, rest)
  {
    assert ([x] + rest)[0] == x && ([x] + rest)[1..] == rest;
  }

  /** The folder `resolve_smart_path` settles on. */
  ghost function SmartPath(pages: Pages, root: int, subpath: string): Option<int>
    requires Finite(pages)
  {
    FirstResolved(pages, root, Variants(subpath, TileNames(Children(pages, root))))
  }

  /** The last fallback: each tile containing `token` in front of the sub-path, in tile order. */
  method TryDocTiles(pages: Pages, root: int, subpath: string, names: seq<string>, token: string) returns (fid: Option<int>)
    requires Finite(pages)
    ensures fid == FirstResolved(pages, root, DocTiles(names, subpath, token))
  {
    var i := 0;
    while i < |names|
      invariant 0 <= i <= |names|
      invariant FirstResolved(pages, root, DocTiles(names, subpath, token))
             == FirstResolved(pages, root, DocTiles(names[i..], subpath, token))
    {
      var n := names[i];
      assert names[i..][0] == n && names[i..][1..] == names[i + 1..];
      ghost var rest := DocTiles(names[i + 1..], subpath, token);
      assert DocTiles(names[i..], subpath, token) == (if Contains(Lower(n), token) then [n + "/" + subpath] else []) + rest;
      if Contains(Lower(n), token) {
        fid := ResolveUnderRoot(pages, root, n + "/" + subpath);
        FirstResolvedCons(pages, root, n + "/" + subpath, rest);
        if fid.Some? {
          return;
        }
      } else {
        assert [] + rest == rest;
      }
      i := i + 1;
    }
    fid := None;
  }

  /** The fallbacks after the direct walk failed, given the root's tile names. */
  method TryFallbacks(pages: Pages, root: int, subpath: string, names: seq<string>,
                      lowered: string, folder: string, token: string) returns (fid: Option<int>)
    requires Finite(pages)
    ensures fid == FirstResolved(pages, root, Fallbacks(subpath, names, lowered, folder, token))
  {
    var underFolder := StartsWith(Lower(subpath), lowered + "/");
    ghost var tiles := DocTiles(names, subpath, token);
    ghost var b := if underFolder then [subpath[|lowered| + 1..]] else [];
    ghost var a := if HasTile(names, lowered) && !underFolder then [folder + "/" + subpath] else [];
    assert Fallbacks(subpath, names, lowered, folder, token) == a + (b + tiles);
    if a == [] {
      assert a + (b + tiles) == b + tiles;
    }
    if b == [] {
      assert b + tiles == tiles;
    }
    if HasTile(names, lowered) && !underFolder {
      fid := ResolveUnderRoot(pages, root, folder + "/" + subpath);
      FirstResolvedCons(pages, root, folder + "/" + subpath, b + tiles);
      if fid.Some? {
        return;
      }
    }
    if underFolder {
      fid := ResolveUnderRoot(pages, root, subpath[|lowered| + 1..]);
      FirstResolvedCons(pages, root, subpath[|lowered| + 1..], tiles);
      if fid.Some? {
        return;
      }
    }
    fid := TryDocTiles(pages, root, subpath, names, token);
  }

  /** `resolve_smart_path`: the sub-path under the root, else the fallback variants in order. */
  method ResolveSmartPath(pages: Pages, root: int, subpath: string) returns (fid: Option<int>)
    requires Finite(pages)
    ensures fid == SmartPath(pages, root, subpath)
  {
    FirstResolvedCons(pages, root, subpath, Fallbacks(subpath, TileNames(Children(pages, root)), "documents", "Documents", "doc"));
    fid := ResolveUnderRoot(pages, root, subpath);
    if fid.Some? {
      return;
    }
    var kids := ListChildren(pages, root);
    fid := TryFallbacks(pages, root, subpath, TileNames(kids), "documents", "Documents", "doc");
  }

  /** How a run of the uploader ends: an exit code, or the folder the file goes to. */
  datatype Outcome = Exit(code: int) | UploadTo(folderId: int)

  /** `--folder-path` stripped of whitespace, then of slashes and backslashes. */
  function Subpath(folderPath: string): string {
    Strip(Strip(folderPath, Whitespace), SlashOrBackslash)
  }

  /** The resolve-or-fallback decision of `main`: exit 6 only when the folder is unresolved,
      `--require-resolved` is set and the sub-path is non-empty; otherwise upload to the resolved
      folder, or to the root when there is none. */
  function Fallback(resolved: Option<int>, root: int, requireResolved: bool, subpath: string): (o: Outcome)
    ensures o == Exit(6) <==> resolved.None? && requireResolved && subpath != ""
    ensures o.Exit? ==> o.code == 6
    ensures o.UploadTo? ==> o.folderId == resolved.GetOr(root)
  {
    if resolved.None? && requireResolved && subpath != "" then Exit(6) else UploadTo(resolved.GetOr(root))
  }

  /** The project id: `--project-id`, or the `PROJECT_ID` setting when that is 0. */
  function ProjectId(projectArg: int, envProjectId: int): int {
    if projectArg != 0 then projectArg else envProjectId
  }

  /** The root folder: `--root-folder-id` when given and non-zero, else the guess. */
  function RootId(rootArg: int, folderItems: seq<Object>): Option<int> {
    if rootArg != 0 then Some(rootArg) else GuessProjectRootId(folderItems)
  }

  /** `main` up to the upload: the exit codes 1, 2, 5 and 6, or the folder the file is uploaded to.
      `fileExists` is whether `--file` names a file; `folderItems` is the project's folder list. */
  method RunUploader(projectArg: int, envProjectId: int, fileExists: bool, folderPath: string, rootArg: int,
              requireResolved: bool, folderItems: seq<Object>, pages: Pages) returns (o: Outcome)
    requires Finite(pages)
    ensures o == Exit(1) <==> ProjectId(projectArg, envProjectId) == 0
    ensures o == Exit(2) <==> ProjectId(projectArg, envProjectId) != 0 && !fileExists
    ensures o == Exit(5) <==> ProjectId(projectArg, envProjectId) != 0 && fileExists && RootId(rootArg, folderItems).None?
    ensures o.Exit? ==> o.code in {1, 2, 5, 6}
    ensures ProjectId(projectArg, envProjectId) != 0 && fileExists && RootId(rootArg, folderItems).Some? ==>
              var root := RootId(rootArg, folderItems).value;
              o == Fallback(SmartPath(pages, root, Subpath(folderPath)), root, requireResolved, Subpath(folderPath))
  {
    var projectId := ProjectId(projectArg, envProjectId);
    if projectId == 0 {
      return Exit(1);
    }
    var subpath := Subpath(folderPath);
    if !fileExists {
      return Exit(2);
    }
    var root := RootId(rootArg, folderItems);
    if root.None? {
      return Exit(5);
    }
    var folderId := ResolveSmartPath(pages, root.value, subpath);
    o := Fallback(folderId, root.value, requireResolved, subpath);
  }
}
