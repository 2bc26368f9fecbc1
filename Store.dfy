/** The mirror's object store: a bucket of keyed objects, each with its body, content headers, user
    metadata and tags, and the writer's operations on it. */
module Store {
  import opened Wrappers
  import opened Text
  import opened Names

  type Bytes = seq<bv8>

  /** A stored object. `metadata` keeps the pairs in the order a `head_object` reports them. */
  datatype Obj = Obj(body: Bytes, contentType: string, disposition: string,
                     metadata: seq<(string, string)>, tags: map<string, string>)

  /** The name of the zero-byte object that stands for a folder. */
  const PlaceholderName := ".placeholder"

  /** What `put_object` with an empty body and no headers stores. */
  const Placeholder := Obj([], "", "", [], map[])

  /** `_to_s3_key(prefix, rel, ".placeholder")`. */
  function PlaceholderKey(prefix: string, rel: string): string {
    ToS3Key([prefix, rel, PlaceholderName])
  }

  /** Every level of every path: `'A/B/C'` contributes `A`, `A/B` and `A/B/C`. */
  function Levels(paths: set<string>): (s: set<string>)
    ensures forall p, i :: p in paths && 0 <= i < |PathLevels(p)| ==> PathLevels(p)[i] in s
    ensures forall l :: l in s ==> exists p, i :: p in paths && 0 <= i < |PathLevels(p)| && PathLevels(p)[i] == l
  {
    set p, i | p in paths && 0 <= i < |PathLevels(p)| :: PathLevels(p)[i]
  }

  /** The keys `keyOf(prefix, level)` of `levels` whose `head_object` answers either "exists" or
      404; a HEAD failing in any other way (`headFails`) is logged and its level skipped. */
  function KeysFor(prefix: string, levels: set<string>, keyOf: (string, string) -> string,
                   headFails: string -> bool): set<string> {
    set rel | rel in levels && !headFails(keyOf(prefix, rel)) :: keyOf(prefix, rel)
  }

  /** The placeholder keys `ensure_placeholders` writes or finds for `levels`. */
  function PlaceholderKeys(prefix: string, levels: set<string>, headFails: string -> bool): set<string> {
    KeysFor(prefix, levels, PlaceholderKey, headFails)
  }

  /** The store once an empty object has been put at every key of `keys` that held nothing. */
  function WithPlaceholders(objects: map<string, Obj>, keys: set<string>): (m: map<string, Obj>)
    ensures m.Keys == objects.Keys + keys
    ensures forall k :: k in objects ==> m[k] == objects[k]
    ensures forall k :: k in keys && k !in objects ==> m[k] == Placeholder
  {
    map k | k in objects.Keys + keys :: if k in objects then objects[k] else Placeholder
  }

  /** Creating placeholders a second time changes nothing. */
  lemma PlaceholdersIdempotent(objects: map<string, Obj>, keys: set<string>)
    ensures WithPlaceholders(WithPlaceholders(objects, keys), keys) == WithPlaceholders(objects, keys)
  {
  }

  /** `head_object` then, on 404, `put_object` of an empty body, for one key. */
  function PutIfAbsent(objects: map<string, Obj>, key: string, headFails: string -> bool): map<string, Obj> {
    if !headFails(key) && key !in objects then objects[key := Placeholder] else objects
  }

  /** One more level visited: the store gains the placeholder of that level, if any. */
  lemma PlaceholderStep(objects0: map<string, Obj>, objects: map<string, Obj>, prefix: string, done: set<string>,
                        rel: string, keyOf: (string, string) -> string, headFails: string -> bool)
    requires objects == WithPlaceholders(objects0, KeysFor(prefix, done, keyOf, headFails))
    ensures PutIfAbsent(objects, keyOf(prefix, rel), headFails)
            == WithPlaceholders(objects0, KeysFor(prefix, done + {rel}, keyOf, headFails))
  {
    var key := keyOf(prefix, rel);
    var keys := KeysFor(prefix, done, keyOf, headFails);
    var keys' := KeysFor(prefix, done + {rel}, keyOf, headFails);
    assert keys' == keys + (if headFails(key) then {} else {key});
    var next := PutIfAbsent(objects, key, headFails);
    var want := WithPlaceholders(objects0, keys');
    assert next.Keys == want.Keys;
    forall j | j in want
      ensures want[j] == next[j]
    {
    }
  }

  /** Every folder path itself gets a placeholder (its deepest level), unless its HEAD fails. */
  lemma PathGetsPlaceholder(objects: map<string, Obj>, prefix: string, paths: set<string>, p: string,
                            headFails: string -> bool)
    requires p in paths && WellFormedPath(p) && !headFails(PlaceholderKey(prefix, p))
    ensures PlaceholderKey(prefix, p) in WithPlaceholders(objects, PlaceholderKeys(prefix, Levels(paths), headFails))
  {
    LastLevelIsPath(p);
    assert p in Levels(paths);
  }

  /** The disposition header starts with `inline` exactly for images. */
  lemma DispositionShown(contentType: string, filename: string)
    ensures StartsWith(DispositionHeader(contentType, filename), "inline") <==> StartsWith(contentType, "image/")
  {
    var h := DispositionHeader(contentType, filename);
    if StartsWith(contentType, "image/") {
      assert h == "inline" + ("; filename=\"" + filename + "\"");
    } else {
      assert h[0] == 'a';
    }
  }

  /** The last value the metadata pairs give to `key` once their names are lower-cased, as a dict
      built from them in order keeps it. */
  function MetaLookup(meta: seq<(string, string)>, key: string): (v: Option<string>)
    ensures v.Some? ==> exists i :: 0 <= i < |meta| && Lower(meta[i].0) == key && meta[i].1 == v.value
    ensures v.None? ==> forall i :: 0 <= i < |meta| ==> Lower(meta[i].0) != key
  {
    if meta == [] then None
    else if Lower(meta[|meta| - 1].0) == key then Some(meta[|meta| - 1].1)
    else MetaLookup(meta[..|meta| - 1], key)
  }

  /** `find_keys_by_docid`'s test of one listed key: not a placeholder, and either its `fv_docid`
      tag or its `documentid` metadata equals the target. A tag read or a HEAD that fails
      (`tagFails`, `headFails`) is logged and that source of evidence skipped; a listed key whose
      object is gone fails both. */
  predicate Matches(objects: map<string, Obj>, k: string, target: string,
                    tagFails: string -> bool, headFails: string -> bool)
  {
    !EndsWith(k, "/" + PlaceholderName) && k in objects &&
    ((!tagFails(k) && "fv_docid" in objects[k].tags && objects[k].tags["fv_docid"] == target) ||
     (!headFails(k) && MetaLookup(objects[k].metadata, "documentid") == Some(target)))
  }

  /** No key appears twice. */
  predicate Distinct(s: seq<string>) {
    forall i, j :: 0 <= i < j < |s| ==> s[i] != s[j]
  }

  /** The bucket the mirror writes to. */
  class Bucket {
    var objects: map<string, Obj>

    constructor (contents: map<string, Obj>)
      ensures objects == contents
    {
      objects := contents;
    }

    /** `ensure_placeholders`: an empty object at `prefix/<level>/.placeholder` for every level of
        every path, where none exists yet. */
    method EnsurePlaceholders(prefix: string, paths: set<string>, headFails: string -> bool)
      modifies this
      ensures objects == WithPlaceholders(old(objects), PlaceholderKeys(prefix, Levels(paths), headFails))
    {
      PutPlaceholders(prefix, Levels(paths), PlaceholderKey, headFails);
    }

    /** The loop of `ensure_placeholders` over the collected levels, `keyOf` naming each level's
        key. The source visits the levels in sorted order; the model visits them in some order, and
        the result does not depend on it. */
    method PutPlaceholders(prefix: string, levels: set<string>, keyOf: (string, string) -> string,
                           headFails: string -> bool)
      modifies this
      ensures objects == WithPlaceholders(old(objects), KeysFor(prefix, levels, keyOf, headFails))
    {
      var todo := levels;
      while todo != {}
        invariant todo <= levels
        invariant objects == WithPlaceholders(old(objects), KeysFor(prefix, levels - todo, keyOf, headFails))
        decreases |todo|
      {
        var rel := Pick(todo);
        var key := keyOf(prefix, rel);
        PlaceholderStep(old(objects), objects, prefix, levels - todo, rel, keyOf, headFails);
        if !headFails(key) && key !in objects {
          objects := objects[key := Placeholder];
        }
        assert levels - (todo - {rel}) == (levels - todo) + {rel};
        todo := todo - {rel};
      }
    }

    /** `upload_to_s3`: store the content at `key` with the guessed content type, an inline
        disposition for images and an attachment one otherwise, the metadata and the tags.
        `mime` is the platform's MIME registry's answer for the file name, and `putFails` whether
        the store rejects the write. */
    method UploadToS3(key: string, content: Bytes, filename: string, mime: Option<string>,
                      metadata: seq<(string, string)>, tags: map<string, string>, putFails: bool)
      returns (ok: bool)
      modifies this
      ensures ok <==> !putFails
      ensures !ok ==> objects == old(objects)
      ensures ok ==> key in objects && objects == old(objects)[key := objects[key]]
      ensures ok ==> var o := objects[key];
        o.body == content && o.metadata == metadata && o.tags == tags &&
        o.contentType == GuessContentType(filename, mime) &&
        o.disposition == Disposition(o.contentType) + "; filename=\"" + filename + "\"" &&
        (StartsWith(o.disposition, "inline") <==> StartsWith(o.contentType, "image/"))
    {
      if putFails {
        return false;
      }
      var contentType := GuessContentType(filename, mime);
      var disposition := DispositionHeader(contentType, filename);
      objects := objects[key := Obj(content, contentType, disposition, metadata, tags)];
      ok := true;
      DispositionShown(contentType, filename);
    }

    /** `find_keys_by_docid` over the bucket's listing of the project prefix (`listing`, all pages
        in order). `at` are the positions in the listing of the keys returned. */
    method FindKeysByDocId(listing: seq<string>, target: string, tagFails: string -> bool,
                           headFails: string -> bool)
      returns (matches: seq<string>, ghost at: seq<nat>)
      // the matching listed keys, in listing order
      ensures |at| == |matches|
      ensures forall j :: 0 <= j < |at| ==> at[j] < |listing| && matches[j] == listing[at[j]]
      ensures forall j, j' :: 0 <= j < j' < |at| ==> at[j] < at[j']
      ensures forall k :: k in matches <==> k in listing && Matches(objects, k, target, tagFails, headFails)
      ensures Distinct(listing) ==> Distinct(matches)
    {
      matches := [];
      at := [];
      for i := 0 to |listing|
        invariant |at| == |matches|
        invariant forall j :: 0 <= j < |at| ==> at[j] < i && matches[j] == listing[at[j]]
        invariant forall j, j' :: 0 <= j < j' < |at| ==> at[j] < at[j']
        invariant forall j :: 0 <= j < |matches| ==> Matches(objects, matches[j], target, tagFails, headFails)
        invariant forall i' :: 0 <= i' < i && Matches(objects, listing[i'], target, tagFails, headFails) ==> listing[i'] in matches
      {
        var k := listing[i];
        if EndsWith(k, "/" + PlaceholderName) {
          continue;
        }
        if k in objects && !tagFails(k) && "fv_docid" in objects[k].tags && objects[k].tags["fv_docid"] == target {
          matches := matches + [k];
          at := at + [i];
          continue;
        }
        if k in objects && !headFails(k) && MetaLookup(objects[k].metadata, "documentid") == Some(target) {
          matches := matches + [k];
          at := at + [i];
        }
      }
      if Distinct(listing) {
        forall j, j' | 0 <= j < j' < |matches|
          ensures matches[j] != matches[j']
        {
          assert at[j] < at[j'];
        }
      }
    }

    /** The delete loop of `handle_document_delete`: every key in turn, kept in `deleted` when the
        store accepts its deletion (`deleteFails` says which it rejects). */
    method DeleteKeys(keys: seq<string>, deleteFails: string -> bool) returns (deleted: seq<string>)
      modifies this
      ensures forall k :: k in deleted <==> k in keys && !deleteFails(k)
      ensures |deleted| <= |keys|
      ensures Distinct(keys) ==> Distinct(deleted)
      ensures objects == map k | k in old(objects) && k !in deleted :: old(objects)[k]
    {
      deleted := [];
      for i := 0 to |keys|
        invariant forall k :: k in deleted <==> k in keys[..i] && !deleteFails(k)
        invariant |deleted| <= i
        invariant Distinct(keys) ==> Distinct(deleted)
        invariant objects == map k | k in old(objects) && k !in deleted :: old(objects)[k]
      {
        var k := keys[i];
        assert keys[..i + 1] == keys[..i] + [k];
        if !deleteFails(k) {
          objects := map k' | k' in objects && k' != k :: objects[k'];
          deleted := deleted + [k];
        }
      }
      assert keys[..|keys|] == keys;
    }
  }
}
