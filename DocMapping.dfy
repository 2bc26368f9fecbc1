/** `ensure_all_folders_and_map_docs`: gives every document a folder path (from the walk's folder
    map, else by climbing parents, else from the document's own folder name) and collects the set
    of folder paths to materialise. */
module DocMapping {
  import opened Wrappers
  import opened Text
  import opened Names
  import opened Remote
  import opened Resolver
  import opened Discovery
  import opened Documents

  /** A document annotated with its `folder_path`. */
  datatype MappedDoc = MappedDoc(doc: Doc, folderPath: string)

  /** A folder path chosen for one document, with the climbing cache it leaves behind. */
  datatype Placed = Placed(path: string, cache: map<int, string>)

  /** The last resort: the document's own `folderName` when non-empty, else `loose`, sanitized. */
  function LooseFolder(doc: Doc, loose: string): (p: string)
    ensures WellFormedPath(p)
  {
    var name := if doc.folderName.Some? && doc.folderName.value != "" then doc.folderName.value else loose;
    SanitizedIsPath(name);
    Sanitize(name)
  }

  /** What `resolve_path_via_parents` returns for a non-zero id and how it updates the cache, the
      empty string standing for `None`. */
  ghost function Climb(api: FolderApi, cache: map<int, string>, fid: int, rank: int -> nat): Placed
    requires Ranked(api, rank)
  {
    if fid in cache then Placed(cache[fid], cache)
    else
      match ClimbNames(api, cache, fid, rank)
      case None => Placed("", cache)
      case Some(names) => Placed(Join(names, "/"), cache[fid := Join(names, "/")])
  }

  /** The path one document gets: the folder map's entry when non-empty, otherwise the climb's
      result when non-empty, otherwise `LooseFolder`. */
  ghost function PathFor(api: FolderApi, folderMap: map<int, string>, cache: map<int, string>, doc: Doc,
                         loose: string, rank: int -> nat): Placed
    requires Ranked(api, rank)
  {
    var fid := doc.folderId;
    var known := if fid != 0 then MapGet(folderMap, fid, "") else "";
    if known != "" then Placed(known, cache)
    else
      var c := if fid != 0 then Climb(api, cache, fid, rank) else Placed("", cache);
      if c.path != "" then c else Placed(LooseFolder(doc, loose), c.cache)
  }

  /** The paths of the documents from index `k` on, in order, the climbing cache carried from one
      to the next. */
  ghost function FolderPaths(api: FolderApi, folderMap: map<int, string>, cache: map<int, string>, docs: seq<Doc>,
                             k: nat, loose: string, rank: int -> nat): (r: seq<string>)
    requires Ranked(api, rank) && k <= |docs|
    ensures |r| == |docs| - k
    decreases |docs| - k
  {
    if k == |docs| then []
    else
      var p := PathFor(api, folderMap, cache, docs[k], loose, rank);
      [p.path] + FolderPaths(api, folderMap, p.cache, docs, k + 1, loose, rank)
  }

  function DocsOf(out: seq<MappedDoc>): (r: seq<Doc>)
    ensures |r| == |out| && forall i :: 0 <= i < |out| ==> r[i] == out[i].doc
  {
    if out == [] then [] else DocsOf(out[..|out| - 1]) + [out[|out| - 1].doc]
  }

  function PathsOf(out: seq<MappedDoc>): (r: seq<string>)
    ensures |r| == |out| && forall i :: 0 <= i < |out| ==> r[i] == out[i].folderPath
  {
    if out == [] then [] else PathsOf(out[..|out| - 1]) + [out[|out| - 1].folderPath]
  }

  /** Non-empty, and every segment well-formed. */
  predicate Segments(s: seq<string>) {
    s != [] && forall i :: 0 <= i < |s| ==> WellFormedPath(s[i])
  }

  /** With a well-formed cache, a successful climb yields well-formed segments, at least one. */
  lemma {:induction false} ClimbWellFormed(api: FolderApi, cache: map<int, string>, id: int, rank: int -> nat)
    requires Ranked(api, rank) && WellFormedCache(cache)
    ensures var names := ClimbNames(api, cache, id, rank); names.Some? ==> Segments(names.value)
    decreases rank(id)
  {
    var names := ClimbNames(api, cache, id, rank);
    if id in cache {
      assert names == Some([cache[id]]);
    } else if id in api && ParentOf(api[id]).Some? {
      var p := ParentOf(api[id]).value;
      ClimbWellFormed(api, cache, p, rank);
      var above := ClimbNames(api, cache, p, rank);
      if above.Some? {
        var s := above.value + [NameOf(api[id])];
        assert names == Some(s);
        forall i | 0 <= i < |s| ensures WellFormedPath(s[i]) {
          if i < |above.value| {
            assert s[i] == above.value[i];
          }
        }
      }
    }
  }

  /** With a well-formed map and cache, a document's path is well-formed and so is the new cache. */
  lemma PathForWellFormed(api: FolderApi, folderMap: map<int, string>, cache: map<int, string>, doc: Doc, loose: string, rank: int -> nat)
    requires Ranked(api, rank) && WellFormedCache(folderMap) && WellFormedCache(cache)
    ensures WellFormedPath(PathFor(api, folderMap, cache, doc, loose, rank).path)
    ensures WellFormedCache(PathFor(api, folderMap, cache, doc, loose, rank).cache)
  {
    var fid := doc.folderId;
    if fid != 0 && fid !in cache {
      ClimbWellFormed(api, cache, fid, rank);
      var names := ClimbNames(api, cache, fid, rank);
      if names.Some? {
        JoinWellFormedAll(names.value);
        WellFormedCacheAdd(cache, fid, Join(names.value, "/"));
      }
    }
  }

  /** With a well-formed folder map, every document gets a well-formed path. */
  lemma {:induction false} FolderPathsWellFormed(api: FolderApi, folderMap: map<int, string>, cache: map<int, string>,
                                                 docs: seq<Doc>, k: nat, loose: string, rank: int -> nat)
    requires Ranked(api, rank) && k <= |docs| && WellFormedCache(folderMap) && WellFormedCache(cache)
    ensures forall i :: 0 <= i < |docs| - k ==> WellFormedPath(FolderPaths(api, folderMap, cache, docs, k, loose, rank)[i])
    decreases |docs| - k
  {
    if k < |docs| {
      var p := PathFor(api, folderMap, cache, docs[k], loose, rank);
      PathForWellFormed(api, folderMap, cache, docs[k], loose, rank);
      FolderPathsWellFormed(api, folderMap, p.cache, docs, k + 1, loose, rank);
      var rest := FolderPaths(api, folderMap, p.cache, docs, k + 1, loose, rank);
      assert FolderPaths(api, folderMap, cache, docs, k, loose, rank) == [p.path] + rest;
    }
  }

  /** The path a document belongs under: its folder's full path when its folder chain can be
      fetched, otherwise `LooseFolder`. */
  ghost function TruePath(api: FolderApi, doc: Doc, loose: string, rank: int -> nat): string
    requires Ranked(api, rank)
  {
    if doc.folderId != 0 && ChainPath(api, rank, doc.folderId).Some? then ChainPath(api, rank, doc.folderId).value
    else LooseFolder(doc, loose)
  }

  /** With a sound map and cache, a document gets its true path, and the cache stays sound. */
  lemma PathForSound(api: FolderApi, folderMap: map<int, string>, cache: map<int, string>, doc: Doc, loose: string, rank: int -> nat)
    requires Ranked(api, rank) && SoundCache(folderMap, api, rank) && SoundCache(cache, api, rank)
    ensures PathFor(api, folderMap, cache, doc, loose, rank).path == TruePath(api, doc, loose, rank)
    ensures SoundCache(PathFor(api, folderMap, cache, doc, loose, rank).cache, api, rank)
  {
    var fid := doc.folderId;
    if fid != 0 {
      if ChainPath(api, rank, fid).Some? {
        ChainPathWellFormed(api, rank, fid);
      }
      if fid !in folderMap && fid !in cache {
        ClimbFindsChainPath(api, cache, fid, rank);
        var names := ClimbNames(api, cache, fid, rank);
        if names.Some? {
          SoundCacheAdd(cache, api, rank, fid, Join(names.value, "/"));
        }
      }
    }
  }

  /** The first path placed from index `k`, then the ones after it, placed with the cache the
      first one leaves. */
  lemma FolderPathsUnfold(api: FolderApi, folderMap: map<int, string>, cache: map<int, string>, docs: seq<Doc>,
                          k: nat, loose: string, rank: int -> nat, p: Placed)
    requires Ranked(api, rank) && k < |docs| && p == PathFor(api, folderMap, cache, docs[k], loose, rank)
    ensures FolderPaths(api, folderMap, cache, docs, k, loose, rank)
            == [p.path] + FolderPaths(api, folderMap, p.cache, docs, k + 1, loose, rank)
  {
  }

  lemma ConsIndex(x: string, rest: seq<string>, i: nat)
    requires 0 < i <= |rest|
    ensures ([x] + rest)[i] == rest[i - 1]
  {
  }

  /** With a sound map and cache, the document at index `j` gets its true path, whatever was
      placed before it from index `k` on. */
  lemma {:induction false} FolderPathsSoundAt(api: FolderApi, folderMap: map<int, string>, cache: map<int, string>,
                                              docs: seq<Doc>, k: nat, j: nat, loose: string, rank: int -> nat)
    requires Ranked(api, rank) && k <= j < |docs| && SoundCache(folderMap, api, rank) && SoundCache(cache, api, rank)
    ensures FolderPaths(api, folderMap, cache, docs, k, loose, rank)[j - k] == TruePath(api, docs[j], loose, rank)
    decreases j - k
  {
    var p := PathFor(api, folderMap, cache, docs[k], loose, rank);
    FolderPathsUnfold(api, folderMap, cache, docs, k, loose, rank, p);
    var rest := FolderPaths(api, folderMap, p.cache, docs, k + 1, loose, rank);
    if j == k {
      PathForSound(api, folderMap, cache, docs[k], loose, rank);
    } else {
      PathForSound(api, folderMap, cache, docs[k], loose, rank);
      FolderPathsSoundAt(api, folderMap, p.cache, docs, k + 1, j, loose, rank);
      ConsIndex(p.path, rest, j - k);
    }
  }

  /** With a sound folder map, every document gets its true path: the order of the documents and
      the climbs in between do not matter. */
  lemma FolderPathsSound(api: FolderApi, folderMap: map<int, string>, docs: seq<Doc>, loose: string, rank: int -> nat)
    requires Ranked(api, rank) && SoundCache(folderMap, api, rank)
    ensures forall j :: 0 <= j < |docs| ==> FolderPaths(api, folderMap, folderMap, docs, 0, loose, rank)[j] == TruePath(api, docs[j], loose, rank)
  {
    forall j | 0 <= j < |docs|
      ensures FolderPaths(api, folderMap, folderMap, docs, 0, loose, rank)[j] == TruePath(api, docs[j], loose, rank)
    {
      FolderPathSoundFromStart(api, folderMap, docs, j, loose, rank);
    }
  }

  lemma FolderPathSoundFromStart(api: FolderApi, folderMap: map<int, string>, docs: seq<Doc>, j: nat, loose: string,
                                 rank: int -> nat)
    requires Ranked(api, rank) && SoundCache(folderMap, api, rank) && j < |docs|
    ensures FolderPaths(api, folderMap, folderMap, docs, 0, loose, rank)[j] == TruePath(api, docs[j], loose, rank)
  {
    FolderPathsSoundAt(api, folderMap, folderMap, docs, 0, j, loose, rank);
  }

  /** One document: the map's entry, else the parents climbed with the shared cache, else
      `LooseFolder`. */
  method PlaceDoc(api: FolderApi, folderMap: map<int, string>, cache: map<int, string>, doc: Doc, loose: string, ghost rank: int -> nat)
    returns (path: string, cache': map<int, string>)
    requires Ranked(api, rank)
    ensures Placed(path, cache') == PathFor(api, folderMap, cache, doc, loose, rank)
  {
    var fid := doc.folderId;
    path, cache' := "", cache;
    if fid != 0 {
      path := MapGet(folderMap, fid, "");
      if path == "" {
        var climbed;
        climbed, cache' := ResolvePathViaParents(api, fid, cache, rank);
        path := climbed.GetOr("");
      }
    }
    if path == "" {
      path := LooseFolder(doc, loose);
    }
  }

  /** The set of the documents' paths. */
  function PathSet(out: seq<MappedDoc>): set<string> {
    set i | 0 <= i < |out| :: out[i].folderPath
  }

  lemma PathSetSnoc(out: seq<MappedDoc>, m: MappedDoc)
    ensures PathSet(out + [m]) == PathSet(out) + {m.folderPath}
  {
    var s := out + [m];
    assert forall i :: 0 <= i < |out| ==> s[i] == out[i];
    assert s[|out|] == m;
  }

  lemma DocsSnoc(out: seq<MappedDoc>, m: MappedDoc, docs: seq<Doc>, i: nat)
    requires i < |docs| && DocsOf(out) == docs[..i] && m.doc == docs[i]
    ensures DocsOf(out + [m]) == docs[..i + 1]
  {
    assert (out + [m])[..|out|] == out;
    assert docs[..i + 1] == docs[..i] + [docs[i]];
  }

  /** The mapping loop's bookkeeping after one more document. */
  lemma FolderPathsAdvance(api: FolderApi, folderMap: map<int, string>, cache: map<int, string>, docs: seq<Doc>,
                           i: nat, out: seq<MappedDoc>, p: Placed, total: seq<string>, loose: string, rank: int -> nat)
    requires Ranked(api, rank) && i < |docs|
    requires PathsOf(out) + FolderPaths(api, folderMap, cache, docs, i, loose, rank) == total
    requires p == PathFor(api, folderMap, cache, docs[i], loose, rank)
    ensures PathsOf(out + [MappedDoc(docs[i], p.path)]) + FolderPaths(api, folderMap, p.cache, docs, i + 1, loose, rank) == total
  {
    assert FolderPaths(api, folderMap, cache, docs, i, loose, rank) == [p.path] + FolderPaths(api, folderMap, p.cache, docs, i + 1, loose, rank);
    assert PathsOf(out + [MappedDoc(docs[i], p.path)]) == PathsOf(out) + [p.path];
    Assoc(PathsOf(out), [p.path], FolderPaths(api, folderMap, p.cache, docs, i + 1, loose, rank));
  }

  lemma Assoc(a: seq<string>, b: seq<string>, c: seq<string>)
    ensures (a + b) + c == a + (b + c)
  {
  }

  /** What the mapping loop keeps after `i` documents: those documents, in order, their paths and
      the paths still to come make up `total`, and the collected paths are the map's and theirs. */
  ghost predicate Mapped(api: FolderApi, folderMap: map<int, string>, docs: seq<Doc>, i: nat, cache: map<int, string>,
                         out: seq<MappedDoc>, paths: set<string>, loose: string, rank: int -> nat, total: seq<string>)
    requires Ranked(api, rank)
  {
    && i <= |docs|
    && DocsOf(out) == docs[..i]
    && PathsOf(out) + FolderPaths(api, folderMap, cache, docs, i, loose, rank) == total
    && paths == ValuesOf(folderMap) + PathSet(out)
  }

  lemma MappedStart(api: FolderApi, folderMap: map<int, string>, docs: seq<Doc>, loose: string, rank: int -> nat)
    requires Ranked(api, rank)
    ensures Mapped(api, folderMap, docs, 0, folderMap, [], ValuesOf(folderMap), loose, rank,
                   FolderPaths(api, folderMap, folderMap, docs, 0, loose, rank))
  {
    var total := FolderPaths(api, folderMap, folderMap, docs, 0, loose, rank);
    assert [] + total == total;
    assert PathSet([]) == {};
  }

  lemma MappedAll(api: FolderApi, folderMap: map<int, string>, docs: seq<Doc>, cache: map<int, string>,
                  out: seq<MappedDoc>, paths: set<string>, loose: string, rank: int -> nat, total: seq<string>)
    requires Ranked(api, rank) && Mapped(api, folderMap, docs, |docs|, cache, out, paths, loose, rank, total)
    ensures DocsOf(out) == docs && PathsOf(out) == total && paths == ValuesOf(folderMap) + PathSet(out)
  {
    assert FolderPaths(api, folderMap, cache, docs, |docs|, loose, rank) == [];
    assert PathsOf(out) + [] == PathsOf(out);
    assert docs[..|docs|] == docs;
  }

  /** One round of the mapping loop: document `i` placed, appended, and its path collected. */
  method MapStep(api: FolderApi, folderMap: map<int, string>, docs: seq<Doc>, i: nat, cache: map<int, string>,
                 out: seq<MappedDoc>, paths: set<string>, loose: string, ghost rank: int -> nat, ghost total: seq<string>)
    returns (cache': map<int, string>, out': seq<MappedDoc>, paths': set<string>)
    requires Ranked(api, rank) && i < |docs|
    requires Mapped(api, folderMap, docs, i, cache, out, paths, loose, rank, total)
    ensures Mapped(api, folderMap, docs, i + 1, cache', out', paths', loose, rank, total)
  {
    var path;
    path, cache' := PlaceDoc(api, folderMap, cache, docs[i], loose, rank);
    FolderPathsAdvance(api, folderMap, cache, docs, i, out, Placed(path, cache'), total, loose, rank);
    PathSetSnoc(out, MappedDoc(docs[i], path));
    DocsSnoc(out, MappedDoc(docs[i], path), docs, i);
    out' := out + [MappedDoc(docs[i], path)];
    paths' := paths + {path};
  }

  /** The loop of `ensure_all_folders_and_map_docs`, with the last-resort folder name as a
      parameter: one annotated document per input document, in order, with the paths `FolderPaths`
      gives when the climbing cache starts as the folder map; the collected paths are the map's
      paths and the documents' paths. */
  method MapDocs(api: FolderApi, folderMap: map<int, string>, docs: seq<Doc>, loose: string, ghost rank: int -> nat)
    returns (paths: set<string>, out: seq<MappedDoc>)
    requires Ranked(api, rank)
    ensures DocsOf(out) == docs
    ensures PathsOf(out) == FolderPaths(api, folderMap, folderMap, docs, 0, loose, rank)
    ensures paths == ValuesOf(folderMap) + PathSet(out)
  {
    paths := ValuesOf(folderMap);
    var cache := folderMap;
    out := [];
    ghost var total := FolderPaths(api, folderMap, folderMap, docs, 0, loose, rank);
    MappedStart(api, folderMap, docs, loose, rank);
    for i := 0 to |docs|
      invariant Mapped(api, folderMap, docs, i, cache, out, paths, loose, rank, total)
    {
      cache, out, paths := MapStep(api, folderMap, docs, i, cache, out, paths, loose, rank, total);
    }
    MappedAll(api, folderMap, docs, cache, out, paths, loose, rank, total);
  }

  /** `ensure_all_folders_and_map_docs`: the documents mapped with `"Documents"` as the last
      resort, and `"Documents"` always among the folder paths (for loose documents). */
  method EnsureAllFoldersAndMapDocs(api: FolderApi, folderMap: map<int, string>, docs: seq<Doc>, ghost rank: int -> nat)
    returns (paths: set<string>, out: seq<MappedDoc>)
    requires Ranked(api, rank)
    ensures DocsOf(out) == docs
    ensures PathsOf(out) == FolderPaths(api, folderMap, folderMap, docs, 0, "Documents", rank)
    ensures paths == ValuesOf(folderMap) + PathSet(out) + {"Documents"}
  {
    paths, out := MapDocs(api, folderMap, docs, "Documents", rank);
    paths := paths + {"Documents"};
  }
}
