/** Turning a folder id into its full path by climbing parents, with the processor's path cache. */
module Resolver {
  import opened Wrappers
  import opened Text
  import opened Names
  import opened Remote

  /** The outcome of `resolve_folder_path`: a path, or the exception strict mode lets through. */
  datatype Resolution = Resolved(path: string) | Raised

  /** The id a caller passes; `None` and `0` are both "no folder" (`if not folder_id`). */
  function IdOf(folderId: Option<int>): int {
    folderId.GetOr(0)
  }

  /** Every cached path is the folder's full path. */
  ghost predicate SoundCache(cache: map<int, string>, api: FolderApi, rank: int -> nat)
    requires Ranked(api, rank)
  {
    forall k :: k in cache ==> ChainPath(api, rank, k) == Some(cache[k])
  }

  /** Every cached path is a well-formed relative path. */
  predicate WellFormedCache(cache: map<int, string>) {
    forall k :: k in cache ==> WellFormedPath(cache[k])
  }

  lemma WellFormedCacheAdd(cache: map<int, string>, k: int, v: string)
    requires WellFormedCache(cache) && WellFormedPath(v)
    ensures WellFormedCache(cache[k := v])
  {
  }

  /** `cache` keeps every entry of `before`, unchanged. */
  predicate Extends(cache: map<int, string>, before: map<int, string>) {
    forall k :: k in before ==> k in cache && cache[k] == before[k]
  }

  /** A resolution together with the cache it leaves behind. */
  datatype Step = Step(result: Resolution, cache: map<int, string>)

  /** What `resolve_folder_path(folder_id, fallback, strict)` returns and how it leaves the cache. */
  function Resolve(api: FolderApi, cache: map<int, string>, folderId: Option<int>, fallback: string, strict: bool,
                   ghost rank: int -> nat): (s: Step)
    requires Ranked(api, rank)
    decreases rank(IdOf(folderId))
    // no id: the sanitized fallback, nothing cached
    ensures IdOf(folderId) == 0 ==> s == Step(Resolved(Sanitize(fallback)), cache)
    // a cache hit
    ensures IdOf(folderId) != 0 && IdOf(folderId) in cache ==> s == Step(Resolved(cache[IdOf(folderId)]), cache)
    // the folder itself cannot be fetched: strict raises, otherwise the sanitized fallback, uncached
    ensures IdOf(folderId) != 0 && IdOf(folderId) !in cache && IdOf(folderId) !in api
            ==> s == Step(if strict then Raised else Resolved(Sanitize(fallback)), cache)
    // a root folder: its name, cached
    ensures var id := IdOf(folderId);
            id != 0 && id !in cache && id in api && ParentOf(api[id]).None?
            ==> s == Step(Resolved(NameOf(api[id])), cache[id := NameOf(api[id])])
    // no cached entry is ever altered, only fetched folders are added, and a raise changes nothing
    ensures Extends(s.cache, cache)
    ensures forall k :: k in s.cache && k !in cache ==> k in api
    ensures s.result.Raised? ==> strict && s.cache == cache
    // whatever resolves a fetched folder caches it
    ensures var id := IdOf(folderId);
            id != 0 && id in api && s.result.Resolved? ==> id in s.cache && s.cache[id] == s.result.path
    // non-strict mode always resolves
    ensures !strict ==> s.result.Resolved?
  {
    var id := IdOf(folderId);
    if id == 0 then Step(Resolved(Sanitize(fallback)), cache)
    else if id in cache then Step(Resolved(cache[id]), cache)
    else if id !in api then Step(if strict then Raised else Resolved(Sanitize(fallback)), cache)
    else
      var name := NameOf(api[id]);
      match ParentOf(api[id])
      case None => Step(Resolved(name), cache[id := name])
      case Some(p) =>
        var parent := Resolve(api, cache, Some(p), "", strict, rank);
        if parent.result.Raised? then parent
        else
          var parentPath := parent.result.path;
          var full := if parentPath != "" then ToS3Key([parentPath, name]) else name;
          Step(Resolved(full), parent.cache[id := full])
  }

  /** A folder with a parent: the parent's path and the folder's name joined by `_to_s3_key` (the
      name alone if that path were empty), cached; when the parent cannot be resolved, strict mode
      raises and non-strict mode caches `"Unnamed/<name>"`. In non-strict mode the parent stays
      unresolved exactly when it is neither cached nor fetchable. */
  lemma ResolveChild(api: FolderApi, cache: map<int, string>, id: int, fallback: string, strict: bool,
                     rank: int -> nat)
    requires Ranked(api, rank)
    requires id != 0 && id !in cache && id in api && ParentOf(api[id]).Some?
    ensures var s := Resolve(api, cache, Some(id), fallback, strict, rank);
            var p := ParentOf(api[id]).value;
            var name := NameOf(api[id]);
            (p in s.cache ==> s.result == Resolved(if s.cache[p] != "" then ToS3Key([s.cache[p], name]) else name)
                              && s.cache[id] == s.result.path)
            && (p !in s.cache ==> if strict then s.result == Raised
                                  else s.result == Resolved(ToS3Key(["Unnamed", name])) && s.cache[id] == s.result.path)
            && (!strict ==> (p in s.cache <==> p in cache || p in api))
  {
    var p := ParentOf(api[id]).value;
    var name := NameOf(api[id]);
    assert IdOf(Some(p)) == p && IdOf(Some(id)) == id;
    assert p != id;
    var parent := Resolve(api, cache, Some(p), "", strict, rank);
    var s := Resolve(api, cache, Some(id), fallback, strict, rank);
    if parent.result.Raised? {
      assert s == parent;
      assert p !in cache;
    } else {
      var pp := parent.result.path;
      var full := if pp != "" then ToS3Key([pp, name]) else name;
      assert s == Step(Resolved(full), parent.cache[id := full]);
      if p in parent.cache {
        assert pp == parent.cache[p];
      } else {
        assert p !in api && p !in cache;
        assert pp == Sanitize("");
      }
    }
  }

  /** Well-formed cached paths stay well formed, and every resolved path is one. */
  lemma {:induction false} ResolveWellFormed(api: FolderApi, cache: map<int, string>, folderId: Option<int>,
                                             fallback: string, strict: bool, rank: int -> nat)
    requires Ranked(api, rank) && WellFormedCache(cache)
    ensures var s := Resolve(api, cache, folderId, fallback, strict, rank);
            WellFormedCache(s.cache) && (s.result.Resolved? ==> WellFormedPath(s.result.path))
    decreases rank(IdOf(folderId))
  {
    SanitizedIsPath(fallback);
    var id := IdOf(folderId);
    var s := Resolve(api, cache, folderId, fallback, strict, rank);
    if id != 0 && id !in cache && id in api {
      var name := NameOf(api[id]);
      if ParentOf(api[id]).Some? {
        var p := ParentOf(api[id]).value;
        assert IdOf(Some(p)) == p;
        ResolveWellFormed(api, cache, Some(p), "", strict, rank);
        var parent := Resolve(api, cache, Some(p), "", strict, rank);
        if parent.result.Resolved? {
          var pp := parent.result.path;
          ToS3KeyPair(pp, name);
          JoinWellFormed(pp, name);
          var full := if pp != "" then ToS3Key([pp, name]) else name;
          assert WellFormedPath(full);
          WellFormedCacheAdd(parent.cache, id, full);
          assert s == Step(Resolved(full), parent.cache[id := full]);
        } else {
          assert s == parent;
        }
      } else {
        WellFormedCacheAdd(cache, id, name);
        assert s == Step(Resolved(name), cache[id := name]);
      }
    }
  }

  /** Strict mode over a sound cache finds the true full path, keeps the cache sound, and raises
      exactly when some folder on the chain cannot be fetched. */
  lemma {:induction false} ResolveStrictSound(api: FolderApi, cache: map<int, string>, folderId: Option<int>,
                                              fallback: string, rank: int -> nat)
    requires Ranked(api, rank) && SoundCache(cache, api, rank) && IdOf(folderId) != 0
    ensures var s := Resolve(api, cache, folderId, fallback, true, rank);
            SoundCache(s.cache, api, rank)
            && (s.result.Raised? <==> ChainPath(api, rank, IdOf(folderId)).None?)
            && (s.result.Resolved? ==> ChainPath(api, rank, IdOf(folderId)) == Some(s.result.path))
    decreases rank(IdOf(folderId))
  {
    var id := IdOf(folderId);
    var s := Resolve(api, cache, folderId, fallback, true, rank);
    if id !in cache && id in api {
      ChainPathStep(api, rank, id);
      var name := NameOf(api[id]);
      if ParentOf(api[id]).Some? {
        var p := ParentOf(api[id]).value;
        assert IdOf(Some(p)) == p;
        ResolveStrictSound(api, cache, Some(p), "", rank);
        var parent := Resolve(api, cache, Some(p), "", true, rank);
        if parent.result.Resolved? {
          var pp := parent.result.path;
          assert ChainPath(api, rank, p) == Some(pp);
          ChainPathWellFormed(api, rank, p);
          ToS3KeyPair(pp, name);
          var full := ToS3Key([pp, name]);
          assert ChainPath(api, rank, id) == Some(full);
          assert s == Step(Resolved(full), parent.cache[id := full]);
          SoundCacheAdd(parent.cache, api, rank, id, full);
        } else {
          assert s == parent;
        }
      } else {
        assert s == Step(Resolved(name), cache[id := name]);
        SoundCacheAdd(cache, api, rank, id, name);
      }
    }
  }

  lemma SoundCacheAdd(cache: map<int, string>, api: FolderApi, rank: int -> nat, k: int, v: string)
    requires Ranked(api, rank) && SoundCache(cache, api, rank) && ChainPath(api, rank, k) == Some(v)
    ensures SoundCache(cache[k := v], api, rank)
  {
  }

  /** The processor's `folder_cache` together with `resolve_folder_path`. */
  class FolderResolver {
    var cache: map<int, string>

    constructor ()
      ensures cache == map[]
    {
      cache := map[];
    }

    /** `resolve_folder_path(folder_id, fallback, strict)`. */
    method ResolveFolderPath(api: FolderApi, folderId: Option<int>, fallback: string, strict: bool,
                             ghost rank: int -> nat)
      returns (r: Resolution)
      requires Ranked(api, rank)
      modifies this
      decreases rank(IdOf(folderId))
      ensures Step(r, cache) == Resolve(api, old(cache), folderId, fallback, strict, rank)
    {
      var id := IdOf(folderId);
      if id == 0 {
        return Resolved(Sanitize(fallback));
      }
      if id in cache {
        return Resolved(cache[id]);
      }
      if id !in api {
        if strict {
          return Raised;
        }
        return Resolved(Sanitize(fallback));
      }
      var rec := api[id];
      var name := NameOf(rec);
      var full: string;
      match ParentOf(rec) {
        case None =>
          full := name;
        case Some(p) =>
          var parent := ResolveFolderPath(api, Some(p), "", strict, rank);
          if parent.Raised? {
            return Raised;
          }
          var parentPath := parent.path;
          full := if parentPath != "" then ToS3Key([parentPath, name]) else name;
      }
      cache := cache[id := full];
      return Resolved(full);
    }
  }

  /** The names `resolve_path_via_parents` collects, root first: the folder's own chain up to the
      first ancestor found in `cache` (whose cached path stands for everything above it), or up to a
      root. `None` when a folder on the way cannot be fetched. */
  ghost function ClimbNames(api: FolderApi, cache: map<int, string>, id: int, rank: int -> nat): Option<seq<string>>
    requires Ranked(api, rank)
    decreases rank(id)
  {
    if id in cache then Some([cache[id]])
    else if id !in api then None
    else
      match ParentOf(api[id])
      case None => Some([NameOf(api[id])])
      case Some(p) =>
        match ClimbNames(api, cache, p, rank)
        case None => None
        case Some(above) => Some(above + [NameOf(api[id])])
  }

  /** With a sound cache, the climb finds the true full path, and it fails exactly when that path
      does not exist. */
  lemma {:induction false} ClimbFindsChainPath(api: FolderApi, cache: map<int, string>, id: int, rank: int -> nat)
    requires Ranked(api, rank) && SoundCache(cache, api, rank)
    ensures ClimbNames(api, cache, id, rank).Some? <==> ChainPath(api, rank, id).Some?
    ensures ClimbNames(api, cache, id, rank).Some? ==> Join(ClimbNames(api, cache, id, rank).value, "/") == ChainPath(api, rank, id).value
    decreases rank(id)
  {
    if id !in cache && id in api {
      ChainPathStep(api, rank, id);
      if ParentOf(api[id]).Some? {
        var p := ParentOf(api[id]).value;
        ClimbFindsChainPath(api, cache, p, rank);
        if ClimbNames(api, cache, p, rank).Some? {
          JoinSnoc(ClimbNames(api, cache, p, rank).value, NameOf(api[id]));
        }
      }
    }
  }

  /** The chain turned round: the climb collects names leaf first. */
  function Reverse(s: seq<string>): (r: seq<string>)
    ensures |r| == |s|
  {
    if s == [] then [] else Reverse(s[1..]) + [s[0]]
  }

  lemma {:induction false} ReverseSnoc(s: seq<string>, x: string)
    ensures Reverse(s + [x]) == [x] + Reverse(s)
    decreases |s|
  {
    if s != [] {
      assert (s + [x])[1..] == s[1..] + [x];
      ReverseSnoc(s[1..], x);
    }
  }

  /** `names` below the climbed part `above`, when there is one. */
  function Lift(above: Option<seq<string>>, names: seq<string>): Option<seq<string>> {
    match above
    case None => None
    case Some(a) => Some(a + names)
  }

  /** One turn of the climbing loop at a root folder not in the cache. */
  lemma ClimbAtRoot(api: FolderApi, cache: map<int, string>, cursor: int, rank: int -> nat, chain: seq<string>)
    requires Ranked(api, rank) && cursor !in cache && cursor in api && ParentOf(api[cursor]).None?
    ensures Lift(ClimbNames(api, cache, cursor, rank), Reverse(chain)) == Some(Reverse(chain + [NameOf(api[cursor])]))
  {
    ReverseSnoc(chain, NameOf(api[cursor]));
  }

  /** One turn of the climbing loop at a folder with a parent, not in the cache. */
  lemma ClimbToParent(api: FolderApi, cache: map<int, string>, cursor: int, rank: int -> nat, chain: seq<string>)
    requires Ranked(api, rank) && cursor !in cache && cursor in api && ParentOf(api[cursor]).Some?
    ensures Lift(ClimbNames(api, cache, cursor, rank), Reverse(chain))
            == Lift(ClimbNames(api, cache, ParentOf(api[cursor]).value, rank), Reverse(chain + [NameOf(api[cursor])]))
  {
    var name := NameOf(api[cursor]);
    var above := ClimbNames(api, cache, ParentOf(api[cursor]).value, rank);
    assert ClimbNames(api, cache, cursor, rank) == Lift(above, [name]);
    ReverseSnoc(chain, name);
    LiftAppend(above, [name], Reverse(chain));
  }

  lemma LiftNil(above: Option<seq<string>>)
    ensures Lift(above, Reverse([])) == above
  {
    if above.Some? {
      assert above.value + [] == above.value;
    }
  }

  lemma LiftAppend(above: Option<seq<string>>, a: seq<string>, b: seq<string>)
    ensures Lift(Lift(above, a), b) == Lift(above, a + b)
  {
    if above.Some? {
      assert above.value + a + b == above.value + (a + b);
    }
  }

  /** `resolve_path_via_parents(folder_id, cache)`: climbs parents from `folderId` until a cached
      ancestor or a root, and records the joined path in the caller's cache. */
  method ResolvePathViaParents(api: FolderApi, folderId: int, cache: map<int, string>, ghost rank: int -> nat)
    returns (r: Option<string>, cache': map<int, string>)
    requires Ranked(api, rank)
    ensures folderId == 0 ==> r.None? && cache' == cache
    ensures folderId != 0 && folderId in cache ==> r == Some(cache[folderId]) && cache' == cache
    ensures folderId != 0 && folderId !in cache && ClimbNames(api, cache, folderId, rank).None?
            ==> r.None? && cache' == cache
    ensures folderId != 0 && folderId !in cache && ClimbNames(api, cache, folderId, rank).Some?
            ==> r == Some(Join(ClimbNames(api, cache, folderId, rank).value, "/")) && cache' == cache[folderId := r.value]
  {
    cache' := cache;
    if folderId == 0 {
      return None, cache';
    }
    if folderId in cache {
      return Some(cache[folderId]), cache';
    }
    var chain: seq<string> := [];
    var cursor := folderId;
    LiftNil(ClimbNames(api, cache, folderId, rank));
    while cursor != 0
      invariant cursor != 0 ==> ClimbNames(api, cache, folderId, rank) == Lift(ClimbNames(api, cache, cursor, rank), Reverse(chain))
      invariant cursor == 0 ==> ClimbNames(api, cache, folderId, rank) == Some(Reverse(chain))
      decreases if cursor == 0 then 0 else rank(cursor) + 1
    {
      if cursor in cache {
        ReverseSnoc(chain, cache[cursor]);
        chain := chain + [cache[cursor]];
        break;
      }
      if cursor !in api {
        return None, cache';
      }
      var rec := api[cursor];
      ghost var before := chain;
      chain := chain + [NameOf(rec)];
      if ParentOf(rec).Some? {
        ClimbToParent(api, cache, cursor, rank, before);
        cursor := ParentOf(rec).value;
      } else {
        ClimbAtRoot(api, cache, cursor, rank, before);
        cursor := 0;
      }
    }
    var full := Join(Reverse(chain), "/");
    cache' := cache[folderId := full];
    return Some(full), cache';
  }
}
