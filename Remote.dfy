/** The document API's folder records, as seen through the request layer, and the true folder paths
    they define. */
module Remote {
  import opened Wrappers
  import opened Text
  import opened Json
  import opened Names

  /** What `GET /core/folders/{id}` returns: the `name` field (`None` when it is absent or null)
      and the whole payload, from which the parent is extracted. */
  datatype FolderRecord = FolderRecord(name: Option<string>, payload: Object)

  /** The folder endpoint. An id missing from the map is one whose fetch fails (after the request
      layer has spent its retries). */
  type FolderApi = map<int, FolderRecord>

  /** The sanitized name `_get_folder_info` reports; a missing or null name reads as `"Unnamed"`. */
  function NameOf(rec: FolderRecord): (n: string)
    ensures WellFormedPath(n) && '/' !in n
  {
    SanitizedIsPath(rec.name.GetOr(""));
    Sanitize(rec.name.GetOr(""))
  }

  /** The parent as the resolvers test it: present and non-zero (`if parent_id:`). */
  function ParentOf(rec: FolderRecord): (p: Option<int>)
    ensures p.Some? ==> p.value != 0
    ensures p.Some? <==> ExtractParentId(rec.payload).Some? && ExtractParentId(rec.payload).value != 0
  {
    match ExtractParentId(rec.payload)
    case Some(v) => if v != 0 then Some(v) else None
    case None => None
  }

  /** Every parent link of a fetchable folder goes to a strictly lower rank: the parent chains are
      acyclic, so walking them ends. */
  ghost predicate Ranked(api: FolderApi, rank: int -> nat) {
    forall id :: id in api && ParentOf(api[id]).Some? ==> rank(ParentOf(api[id]).value) < rank(id)
  }

  /** The names on the chain from the root down to `id`, or `None` when some folder on it cannot be
      fetched. */
  ghost function ChainNames(api: FolderApi, rank: int -> nat, id: int): (r: Option<seq<string>>)
    requires Ranked(api, rank)
    ensures r.Some? ==> |r.value| >= 1 && forall i :: 0 <= i < |r.value| ==> WellFormedPath(r.value[i])
    decreases rank(id)
  {
    if id !in api then None
    else
      var rec := api[id];
      match ParentOf(rec)
      case None => Some([NameOf(rec)])
      case Some(p) =>
        match ChainNames(api, rank, p)
        case None => None
        case Some(above) => Some(above + [NameOf(rec)])
  }

  /** The full path of a folder: the names on its chain, joined with `/`. */
  ghost function ChainPath(api: FolderApi, rank: int -> nat, id: int): Option<string>
    requires Ranked(api, rank)
  {
    match ChainNames(api, rank, id)
    case None => None
    case Some(names) => Some(Join(names, "/"))
  }

  lemma {:induction false} JoinSnoc(xs: seq<string>, y: string)
    requires xs != []
    ensures Join(xs + [y], "/") == Join(xs, "/") + "/" + y
    decreases |xs|
  {
    if |xs| == 1 {
      assert xs + [y] == [xs[0], y];
      assert [xs[0], y][1..] == [y];
    } else {
      JoinSnoc(xs[1..], y);
      assert (xs + [y])[1..] == xs[1..] + [y];
    }
  }

  lemma {:induction false} JoinWellFormedAll(xs: seq<string>)
    requires xs != [] && forall i :: 0 <= i < |xs| ==> WellFormedPath(xs[i])
    ensures WellFormedPath(Join(xs, "/"))
    decreases |xs|
  {
    if |xs| > 1 {
      JoinWellFormedAll(xs[1..]);
      JoinWellFormed(xs[0], Join(xs[1..], "/"));
    }
  }

  /** One step of the chain: a folder's path is its parent's path, a slash and its own name, and a
      root folder's path is its name. */
  lemma ChainPathStep(api: FolderApi, rank: int -> nat, id: int)
    requires Ranked(api, rank) && id in api
    ensures ParentOf(api[id]).None? ==> ChainPath(api, rank, id) == Some(NameOf(api[id]))
    ensures ParentOf(api[id]).Some? && ChainPath(api, rank, ParentOf(api[id]).value).None?
            ==> ChainPath(api, rank, id).None?
    ensures ParentOf(api[id]).Some? && ChainPath(api, rank, ParentOf(api[id]).value).Some?
            ==> ChainPath(api, rank, id) == Some(ChainPath(api, rank, ParentOf(api[id]).value).value + "/" + NameOf(api[id]))
  {
    var rec := api[id];
    if ParentOf(rec).Some? {
      var p := ParentOf(rec).value;
      if ChainNames(api, rank, p).Some? {
        JoinSnoc(ChainNames(api, rank, p).value, NameOf(rec));
      }
    }
  }

  /** Every full path is a well-formed relative path. */
  lemma ChainPathWellFormed(api: FolderApi, rank: int -> nat, id: int)
    requires Ranked(api, rank) && ChainPath(api, rank, id).Some?
    ensures WellFormedPath(ChainPath(api, rank, id).value)
  {
    JoinWellFormedAll(ChainNames(api, rank, id).value);
  }
}
