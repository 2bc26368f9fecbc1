/** Path segments, object keys, folder levels and content types. */
module Names {
  import opened Wrappers
  import opened Text

  /** The characters `sanitize` deletes: `< > : " / \ | ? *` and the C0 controls U+0000..U+001F. */
  predicate IsIllegal(c: char) {
    c == '<' || c == '>' || c == ':' || c == '"' || c == '/' || c == '\\' || c == '|' || c == '?' || c == '*'
    || c < ' '
  }

  /** `re.sub(r'[<>:"/\\|?*\x00-\x1f]', "", s)`. */
  function DropIllegal(s: string): (r: string)
    ensures forall i :: 0 <= i < |r| ==> !IsIllegal(r[i])
    ensures forall c :: !IsIllegal(c) ==> multiset(r)[c] == multiset(s)[c]
    ensures (forall i :: 0 <= i < |s| ==> !IsIllegal(s[i])) ==> r == s
  {
    if s == [] then []
    else
      var rest := DropIllegal(s[1..]);
      DropStep(s, rest);
      (if IsIllegal(s[0]) then [] else [s[0]]) + rest
  }

  /** The step of `DropIllegal`: `rest` is what it makes of `s[1..]`. */
  lemma DropStep(s: string, rest: string)
    requires s != []
    requires forall i :: 0 <= i < |rest| ==> !IsIllegal(rest[i])
    requires forall c :: !IsIllegal(c) ==> multiset(rest)[c] == multiset(s[1..])[c]
    requires (forall i :: 0 <= i < |s| - 1 ==> !IsIllegal(s[1..][i])) ==> rest == s[1..]
    ensures var r := (if IsIllegal(s[0]) then [] else [s[0]]) + rest;
            (forall i :: 0 <= i < |r| ==> !IsIllegal(r[i])) &&
            (forall c :: !IsIllegal(c) ==> multiset(r)[c] == multiset(s)[c]) &&
            ((forall i :: 0 <= i < |s| ==> !IsIllegal(s[i])) ==> r == s)
  {
    var head := if IsIllegal(s[0]) then [] else [s[0]];
    DropStepClean(head, rest);
    DropStepCount(s, head, rest);
    if forall i :: 0 <= i < |s| ==> !IsIllegal(s[i]) {
      forall i | 0 <= i < |s| - 1 ensures !IsIllegal(s[1..][i]) { assert s[1..][i] == s[i + 1]; }
      assert s == [s[0]] + s[1..];
    }
  }

  lemma DropStepClean(head: string, rest: string)
    requires forall i :: 0 <= i < |head| ==> !IsIllegal(head[i])
    requires forall i :: 0 <= i < |rest| ==> !IsIllegal(rest[i])
    ensures forall i :: 0 <= i < |head + rest| ==> !IsIllegal((head + rest)[i])
  {
    var r := head + rest;
    forall i | 0 <= i < |r| ensures !IsIllegal(r[i]) {
      if i < |head| { assert r[i] == head[i]; } else { assert r[i] == rest[i - |head|]; }
    }
  }

  lemma DropStepCount(s: string, head: string, rest: string)
    requires s != [] && head == (if IsIllegal(s[0]) then [] else [s[0]])
    requires forall c :: !IsIllegal(c) ==> multiset(rest)[c] == multiset(s[1..])[c]
    ensures forall c :: !IsIllegal(c) ==> multiset(head + rest)[c] == multiset(s)[c]
  {
    assert s == [s[0]] + s[1..];
    assert multiset(s) == multiset([s[0]]) + multiset(s[1..]);
    assert multiset(head + rest) == multiset(head) + multiset(rest);
  }

  /** No whitespace character directly follows another. */
  predicate NoDoubleSpace(s: string) {
    forall i :: 0 <= i < |s| - 1 ==> !(IsSpace(s[i]) && IsSpace(s[i + 1]))
  }

  /** The only whitespace character is the plain space. */
  predicate OnlyPlainSpace(s: string) {
    forall i :: 0 <= i < |s| ==> IsSpace(s[i]) ==> s[i] == ' '
  }

  predicate NoIllegal(s: string) {
    forall i :: 0 <= i < |s| ==> !IsIllegal(s[i])
  }

  /** `re.sub(r'\s+', " ", s)`: every maximal run of whitespace becomes one space. */
  function CollapseSpace(s: string): (r: string)
    ensures OnlyPlainSpace(r) && NoDoubleSpace(r)
    ensures r == [] <==> s == []
    ensures r != [] ==> (IsSpace(r[0]) <==> IsSpace(s[0]))
    ensures NoIllegal(s) ==> NoIllegal(r)
    decreases |s|
  {
    if s == [] then []
    else if IsSpace(s[0]) then
      var rest := TrimStart(s, Whitespace);
      var t := CollapseSpace(rest);
      assert NoIllegal(s) ==> NoIllegal(rest) by {
        if NoIllegal(s) {
          forall i | 0 <= i < |rest| ensures !IsIllegal(rest[i]) {
            assert rest[i] == s[|s| - |rest| + i];
          }
        }
      }
      [' '] + t
    else
      var t := CollapseSpace(s[1..]);
      assert NoIllegal(s) ==> NoIllegal(s[1..]) by {
        if NoIllegal(s) {
          forall i | 0 <= i < |s| - 1 ensures !IsIllegal(s[1..][i]) {
            assert s[1..][i] == s[i + 1];
          }
        }
      }
      [s[0]] + t
  }

  /** Collapsing leaves a string alone when its whitespace is already single plain spaces. */
  lemma {:induction false} CollapseSpaceKeeps(s: string)
    requires OnlyPlainSpace(s) && NoDoubleSpace(s)
    ensures CollapseSpace(s) == s
    decreases |s|
  {
    if s != [] {
      var t := s[1..];
      assert OnlyPlainSpace(t) && NoDoubleSpace(t) by {
        forall i | 0 <= i < |t| ensures IsSpace(t[i]) ==> t[i] == ' ' { assert t[i] == s[i + 1]; }
        forall i | 0 <= i < |t| - 1 ensures !(IsSpace(t[i]) && IsSpace(t[i + 1])) {
          assert t[i] == s[i + 1] && t[i + 1] == s[i + 2];
        }
      }
      CollapseSpaceKeeps(t);
      if IsSpace(s[0]) {
        assert |s| == 1 || !IsSpace(s[1]);
        assert TrimStart(s, Whitespace) == t by {
          assert t == [] || !InClass(t[0], Whitespace);
          assert TrimStart(t, Whitespace) == t;
        }
      }
    }
  }

  /** Properties of a string carry over to any contiguous piece of it. */
  lemma SliceKeeps(s: string, a: nat, b: nat)
    requires a <= b <= |s|
    ensures NoIllegal(s) ==> NoIllegal(s[a..b])
    ensures NoDoubleSpace(s) ==> NoDoubleSpace(s[a..b])
    ensures OnlyPlainSpace(s) ==> OnlyPlainSpace(s[a..b])
  {
    var t := s[a..b];
    forall i | 0 <= i < |t| ensures t[i] == s[a + i] { }
  }

  /** A suffix keeps them too. */
  lemma SuffixKeeps(s: string, u: string)
    requires |u| <= |s| && u == s[|s| - |u|..]
    ensures NoIllegal(s) ==> NoIllegal(u)
    ensures NoDoubleSpace(s) ==> NoDoubleSpace(u)
    ensures OnlyPlainSpace(s) ==> OnlyPlainSpace(u)
  {
    var a := |s| - |u|;
    forall i | 0 <= i < |u| ensures u[i] == s[a + i] { }
  }

  /** Stripping keeps these properties, since it returns a contiguous piece. */
  lemma StripKeeps(s: string, k: CharClass)
    ensures NoIllegal(s) ==> NoIllegal(Strip(s, k))
    ensures NoDoubleSpace(s) ==> NoDoubleSpace(Strip(s, k))
    ensures OnlyPlainSpace(s) ==> OnlyPlainSpace(Strip(s, k))
  {
    TrimStartKeeps(s, k);
    TrimEndKeeps(TrimStart(s, k), k);
  }

  lemma TrimStartKeeps(s: string, k: CharClass)
    ensures NoIllegal(s) ==> NoIllegal(TrimStart(s, k))
    ensures NoDoubleSpace(s) ==> NoDoubleSpace(TrimStart(s, k))
    ensures OnlyPlainSpace(s) ==> OnlyPlainSpace(TrimStart(s, k))
  {
    var u := TrimStart(s, k);
    SuffixKeeps(s, u);
  }

  lemma TrimEndKeeps(u: string, k: CharClass)
    ensures NoIllegal(u) ==> NoIllegal(TrimEnd(u, k))
    ensures NoDoubleSpace(u) ==> NoDoubleSpace(TrimEnd(u, k))
    ensures OnlyPlainSpace(u) ==> OnlyPlainSpace(TrimEnd(u, k))
  {
    var r := TrimEnd(u, k);
    SliceKeeps(u, 0, |r|);
    assert r == u[0..|r|];
  }

  /** `sanitize(name)`: a safe, non-empty path segment. An empty (or `None`) name is `"Unnamed"`. */
  function Sanitize(name: string): (r: string)
    ensures r != []
    ensures NoIllegal(r)
    ensures NoDoubleSpace(r)
    ensures r[0] != '.' && r[|r| - 1] != '.'
    ensures name == [] ==> r == "Unnamed"
  {
    if name == [] then "Unnamed"
    else
      var c := CollapseSpace(DropIllegal(name));
      var t := Strip(Strip(c, Whitespace), Dot);
      if t == [] then "Unnamed"
      else
        StripKeeps(c, Whitespace);
        StripKeeps(Strip(c, Whitespace), Dot);
        t
  }

  /** A segment that `sanitize` returns unchanged. */
  predicate Tidy(s: string) {
    s != [] && NoIllegal(s) && OnlyPlainSpace(s) && NoDoubleSpace(s)
    && s[0] != ' ' && s[|s| - 1] != ' ' && s[0] != '.' && s[|s| - 1] != '.'
  }

  /** `sanitize` leaves a tidy name as it is. */
  lemma SanitizeKeepsTidy(s: string)
    requires Tidy(s)
    ensures Sanitize(s) == s
  {
    assert DropIllegal(s) == s;
    CollapseSpaceKeeps(s);
    StripEnds(s, Whitespace);
    StripEnds(s, Dot);
  }

  /** Putting one more character in front keeps a string free of illegal characters and of doubled
      or non-plain whitespace, provided the character itself does not break that. */
  lemma ConsKeeps(c: char, t: string)
    requires t != [] && NoIllegal(t) && OnlyPlainSpace(t) && NoDoubleSpace(t)
    requires !IsIllegal(c) && (IsSpace(c) ==> c == ' ' && !IsSpace(t[0]))
    ensures NoIllegal([c] + t) && OnlyPlainSpace([c] + t) && NoDoubleSpace([c] + t)
  {
    var s := [c] + t;
    forall i | 1 <= i < |s| ensures s[i] == t[i - 1] { }
  }

  /** On a string already free of illegal characters and of doubled or non-plain whitespace,
      `sanitize` only strips the ends. */
  lemma SanitizeClean(s: string)
    requires s != [] && NoIllegal(s) && OnlyPlainSpace(s) && NoDoubleSpace(s)
    ensures Sanitize(s) == var t := Strip(Strip(s, Whitespace), Dot); if t == [] then "Unnamed" else t
  {
    assert DropIllegal(s) == s;
    CollapseSpaceKeeps(s);
  }

  /** A name that starts with a dot and a space keeps that space after sanitizing. */
  lemma SanitizeDotSpace(t: string)
    requires Tidy(t)
    ensures Sanitize(". " + t) == " " + t
  {
    var u := [' '] + t;
    var s := ['.'] + u;
    assert s == ". " + t;
    assert !IsIllegal('.') && !IsIllegal(' ') && !IsSpace('.') && IsSpace(' ');
    ConsKeeps(' ', t);
    ConsKeeps('.', u);
    SanitizeClean(s);
    var last := t[|t| - 1];
    assert last != ' ' && last != '.' && (IsSpace(last) ==> last == ' ');
    DotSpaceWhitespace(s, last);
    DotSpaceDot(s, u, last);
  }

  /** The strips `sanitize` applies to `". " + t`: no whitespace at either end, one dot in front. */
  lemma DotSpaceWhitespace(s: string, last: char)
    requires |s| >= 2 && s[0] == '.' && s[|s| - 1] == last && !IsSpace(last)
    ensures Strip(s, Whitespace) == s
  {
    assert !IsSpace('.');
    StripEnds(s, Whitespace);
  }

  lemma DotSpaceDot(s: string, u: string, last: char)
    requires |s| >= 2 && s[0] == '.' && s[1..] == u && u[0] == ' ' && u[|u| - 1] == last && last != '.'
    ensures Strip(s, Dot) == u
  {
    TrimStartSkip(s, Dot);
    TrimStartStop(u, Dot);
    StripEnds(u, Dot);
  }

  /** So `sanitize` is not idempotent: a second pass removes that space. */
  lemma SanitizeNotIdempotent(t: string)
    requires Tidy(t)
    ensures Sanitize(Sanitize(". " + t)) == t != Sanitize(". " + t)
  {
    SanitizeDotSpace(t);
    var u := [' '] + t;
    assert u == " " + t;
    assert !IsIllegal(' ') && IsSpace(' ');
    ConsKeeps(' ', t);
    SanitizeClean(u);
    assert Strip(u, Whitespace) == t by {
      assert u[1..] == t;
      TrimStartSkip(u, Whitespace);
      StripEnds(t, Whitespace);
    }
    assert Strip(t, Dot) == t by {
      StripEnds(t, Dot);
    }
    assert |u| != |t|;
  }

  /** One part of `_to_s3_key`: slashes stripped from both ends, then backslashes turned into slashes. */
  function KeyPart(p: string): string {
    Replace(Strip(p, Slash), '\\', '/')
  }

  /** Each part of `_to_s3_key` cleaned with `KeyPart`, in order. */
  function KeyParts(parts: seq<string>): seq<string> {
    if parts == [] then [] else [KeyPart(parts[0])] + KeyParts(parts[1..])
  }

  lemma KeyPartsCons(a: string, rest: seq<string>)
    ensures KeyParts([a] + rest) == [KeyPart(a)] + KeyParts(rest)
  {
    assert ([a] + rest)[1..] == rest;
  }

  lemma KeyPartsTwo(a: string, b: string)
    ensures KeyParts([a, b]) == [KeyPart(a), KeyPart(b)]
  {
    KeyPartsCons(a, [b]);
    KeyPartsCons(b, []);
    assert [a, b] == [a] + [b];
  }

  lemma KeyPartsThree(a: string, b: string, c: string)
    ensures KeyParts([a, b, c]) == [KeyPart(a), KeyPart(b), KeyPart(c)]
  {
    KeyPartsCons(a, [b, c]);
    KeyPartsTwo(b, c);
    assert [a, b, c] == [a] + [b, c];
    ConsTwo(KeyPart(a), KeyPart(b), KeyPart(c));
  }

  lemma ConsTwo<T>(x: T, y: T, z: T)
    ensures [x] + [y, z] == [x, y, z]
  {
  }

  /** `_to_s3_key(*parts)`: the parts joined with `/`, with no slash at either end. */
  function ToS3Key(parts: seq<string>): (k: string)
    ensures k == [] || (k[0] != '/' && k[|k| - 1] != '/')
  {
    Strip(Join(KeyParts(parts), "/"), Slash)
  }

  /** A relative path: non-empty, no backslash, no slash at either end. */
  predicate CleanPath(p: string) {
    p != [] && '\\' !in p && p[0] != '/' && p[|p| - 1] != '/'
  }

  lemma KeyPartOfClean(p: string)
    requires CleanPath(p)
    ensures KeyPart(p) == p
  {
    StripEnds(p, Slash);
    ReplaceAbsent(p, '\\', '/');
  }

  lemma JoinClean(a: string, b: string)
    requires CleanPath(a) && CleanPath(b)
    ensures CleanPath(a + "/" + b)
  {
    var j := a + "/" + b;
    assert j[0] == a[0] && j[|j| - 1] == b[|b| - 1];
    forall i | 0 <= i < |j| ensures j[i] != '\\' {
      if i < |a| { assert j[i] == a[i]; }
      else if i > |a| { assert j[i] == b[i - |a| - 1]; }
    }
  }

  /** Joining two clean paths puts exactly one slash between them. */
  lemma ToS3KeyPair(a: string, b: string)
    requires CleanPath(a) && CleanPath(b)
    ensures ToS3Key([a, b]) == a + "/" + b
    ensures CleanPath(ToS3Key([a, b]))
  {
    KeyPartOfClean(a);
    KeyPartOfClean(b);
    KeyPartsTwo(a, b);
    assert Join([a, b], "/") == a + "/" + Join([b], "/");
    JoinClean(a, b);
    StripEnds(a + "/" + b, Slash);
  }

  /** The key part of a clean path followed by one slash is the path. */
  lemma KeyPartOfSlashed(prefix: string)
    requires CleanPath(prefix)
    ensures KeyPart(prefix + "/") == prefix
  {
    var q := prefix + "/";
    assert Strip(q, Slash) == prefix by {
      TrimStartStop(q, Slash);
      TrimEndSkip(q, Slash);
      assert q[..|q| - 1] == prefix;
      StripEnds(prefix, Slash);
      assert TrimStart(prefix, Slash) == prefix;
    }
    ReplaceAbsent(prefix, '\\', '/');
  }

  /** A key prefix ending in one slash joined with a clean path and a clean name. */
  lemma ToS3KeyTriple(prefix: string, p: string, name: string)
    requires CleanPath(prefix) && CleanPath(p) && CleanPath(name)
    ensures ToS3Key([prefix + "/", p, name]) == prefix + "/" + p + "/" + name
  {
    KeyPartOfSlashed(prefix);
    KeyPartOfClean(p);
    KeyPartOfClean(name);
    KeyPartsThree(prefix + "/", p, name);
    var tail := p + "/" + name;
    JoinThree(prefix, p, name);
    JoinClean(p, name);
    JoinClean(prefix, tail);
    StripEnds(prefix + "/" + tail, Slash);
    assert prefix + "/" + tail == prefix + "/" + p + "/" + name;
  }

  lemma JoinThree(a: string, b: string, c: string)
    ensures Join([a, b, c], "/") == a + "/" + (b + "/" + c)
  {
    JoinCons(a, [b, c]);
    JoinCons(b, [c]);
    assert [a, b, c] == [a] + [b, c];
    assert [b, c] == [b] + [c];
  }

  lemma JoinCons(a: string, rest: seq<string>)
    requires rest != []
    ensures Join([a] + rest, "/") == a + "/" + Join(rest, "/")
  {
    assert ([a] + rest)[1..] == rest;
  }

  /** The levels below `acc`: each next segment appended, joined with `/`. */
  function LevelsFrom(acc: seq<string>, rest: seq<string>): (r: seq<string>)
    ensures |r| == |rest|
    ensures forall i :: 0 <= i < |rest| ==> r[i] == Join(acc + rest[..i + 1], "/")
    decreases |rest|
  {
    if rest == [] then []
    else
      var acc' := acc + [rest[0]];
      var tail := LevelsFrom(acc', rest[1..]);
      assert forall i :: 1 <= i <= |rest| - 1 ==> acc' + rest[1..][..i] == acc + rest[..i + 1] by {
        forall i | 1 <= i <= |rest| - 1 ensures acc' + rest[1..][..i] == acc + rest[..i + 1] {
          assert rest[..i + 1] == [rest[0]] + rest[1..][..i];
        }
      }
      assert acc + rest[..1] == acc';
      [Join(acc', "/")] + tail
  }

  /** The non-empty segments of a path, after trimming slashes and turning backslashes into slashes. */
  function Segments(path: string): seq<string> {
    NonEmpty(Split(Replace(Strip(path, Slash), '\\', '/'), '/'))
  }

  /** `_path_levels(path)`: `'A/B/C'` gives `['A', 'A/B', 'A/B/C']`. */
  function PathLevels(path: string): (r: seq<string>)
    ensures |r| == |Segments(path)|
    ensures forall i :: 0 <= i < |r| ==> r[i] == Join(Segments(path)[..i + 1], "/")
  {
    var segs := Segments(path);
    assert forall k :: 0 <= k <= |segs| ==> [] + segs[..k] == segs[..k];
    LevelsFrom([], segs)
  }

  /** The extension `os.path.splitext` reports: from the last dot of the last component, when that
      dot follows some character other than a dot; otherwise empty. */
  function Extension(p: string): (e: string)
    ensures e == [] || (e[0] == '.' && EndsWith(p, e) && '/' !in e)
  {
    var lastSep := LastIndex(p, '/');
    var lastDot := LastIndex(p, '.');
    if lastDot > lastSep && exists j :: lastSep + 1 <= j < lastDot && p[j] != '.' then
      assert p[lastDot..] == p[|p| - |p[lastDot..]|..];
      p[lastDot..]
    else []
  }

  /** The index of the last occurrence of `c`, or -1. */
  function LastIndex(s: string, c: char): (i: int)
    ensures -1 <= i < |s|
    ensures i >= 0 ==> s[i] == c
    ensures forall j :: i < j < |s| ==> s[j] != c
  {
    if s == [] then -1
    else if s[|s| - 1] == c then |s| - 1
    else LastIndex(s[..|s| - 1], c)
  }

  /** The table `_guess_content_type` falls back to, keyed by lower-cased extension. */
  const FallbackTypes: map<string, string> := map[
    ".doc" := "application/msword",
    ".docx" := "application/vnd.openxmlformats-officedocument.wordprocessingml.document",
    ".xls" := "application/vnd.ms-excel",
    ".xlsx" := "application/vnd.openxmlformats-officedocument.spreadsheetml.sheet",
    ".ppt" := "application/vnd.ms-powerpoint",
    ".pptx" := "application/vnd.openxmlformats-officedocument.presentationml.presentation",
    ".json" := "application/json",
    ".csv" := "text/csv",
    ".txt" := "text/plain",
    ".png" := "image/png",
    ".jpg" := "image/jpeg",
    ".jpeg" := "image/jpeg",
    ".pdf" := "application/pdf"
  ]

  const OctetStream := "application/octet-stream"

  /** `_guess_content_type(filename)`; `mime` is the answer of the platform's MIME registry. */
  function GuessContentType(filename: string, mime: Option<string>): (t: string)
    ensures t != []
    ensures mime.Some? && mime.value != [] ==> t == mime.value
    ensures (mime.None? || mime.value == []) && Lower(Extension(filename)) in FallbackTypes
            ==> t == FallbackTypes[Lower(Extension(filename))]
    ensures (mime.None? || mime.value == []) && Lower(Extension(filename)) !in FallbackTypes ==> t == OctetStream
  {
    if mime.Some? && mime.value != [] then mime.value
    else
      var ext := Lower(Extension(filename));
      if ext in FallbackTypes then FallbackTypes[ext] else OctetStream
  }

  /** Images are shown inline, everything else is offered as a download. */
  function Disposition(contentType: string): (d: string)
    ensures d == "inline" <==> StartsWith(contentType, "image/")
    ensures d == "inline" || d == "attachment"
  {
    if StartsWith(contentType, "image/") then "inline" else "attachment"
  }

  /** The `ContentDisposition` header value. */
  function DispositionHeader(contentType: string, filename: string): string {
    Disposition(contentType) + "; filename=\"" + filename + "\""
  }

  /** A folder path as the resolver builds it: clean, and no empty segment between two slashes. */
  predicate WellFormedPath(p: string) {
    CleanPath(p) && forall i :: 0 <= i < |p| - 1 ==> !(p[i] == '/' && p[i + 1] == '/')
  }

  /** A sanitized name is a one-segment path. */
  lemma SanitizedIsPath(name: string)
    ensures WellFormedPath(Sanitize(name)) && '/' !in Sanitize(name)
  {
    var r := Sanitize(name);
    forall i | 0 <= i < |r| ensures r[i] != '/' && r[i] != '\\' {
      assert !IsIllegal(r[i]);
    }
  }

  /** Two well-formed paths joined by one slash form a well-formed path. */
  lemma JoinWellFormed(a: string, b: string)
    requires WellFormedPath(a) && WellFormedPath(b)
    ensures WellFormedPath(a + "/" + b)
  {
    JoinClean(a, b);
    var j := a + "/" + b;
    forall i | 0 <= i < |j| - 1 ensures !(j[i] == '/' && j[i + 1] == '/') {
      if i + 1 < |a| {
        assert j[i] == a[i] && j[i + 1] == a[i + 1];
      } else if i + 1 == |a| {
        assert j[i] == a[|a| - 1];
      } else if i == |a| {
        assert j[i + 1] == b[0];
      } else {
        assert j[i] == b[i - |a| - 1] && j[i + 1] == b[i - |a|];
      }
    }
  }

  /** Splitting on `sep` and joining with `sep` gives the string back. */
  lemma {:induction false} JoinSplit(s: string, sep: char)
    ensures Join(Split(s, sep), [sep]) == s
    decreases |s|
  {
    if s != [] {
      var rest := Split(s[1..], sep);
      JoinSplit(s[1..], sep);
      if s[0] == sep {
        assert Split(s, sep) == [""] + rest;
        assert ([""] + rest)[1..] == rest;
        assert s == [sep] + s[1..];
      } else {
        var parts := Split(s, sep);
        assert parts == [[s[0]] + rest[0]] + rest[1..];
        if |rest| == 1 {
          assert Join(rest, [sep]) == rest[0];
        } else {
          assert Join(rest, [sep]) == rest[0] + [sep] + Join(rest[1..], [sep]);
          assert parts[1..] == rest[1..];
        }
        assert s == [s[0]] + s[1..];
      }
    }
  }

  /** No slash ends the string and no two slashes touch. */
  predicate NoEmptyTail(s: string) {
    (s == [] || s[|s| - 1] != '/') && forall i :: 0 <= i < |s| - 1 ==> !(s[i] == '/' && s[i + 1] == '/')
  }

  /** Then every piece after the first is non-empty. */
  lemma {:induction false} SplitPiecesNonEmpty(s: string)
    requires NoEmptyTail(s)
    ensures forall i :: 1 <= i < |Split(s, '/')| ==> Split(s, '/')[i] != ""
    decreases |s|
  {
    if s != [] {
      var t := s[1..];
      assert NoEmptyTail(t) by {
        forall i | 0 <= i < |t| - 1 ensures !(t[i] == '/' && t[i + 1] == '/') {
          assert t[i] == s[i + 1] && t[i + 1] == s[i + 2];
        }
      }
      SplitPiecesNonEmpty(t);
      var rest := Split(t, '/');
      if s[0] == '/' {
        assert t != [] && t[0] != '/';
        assert Split(t, '/')[0] != "";
        assert Split(s, '/') == [""] + rest;
      } else {
        assert Split(s, '/') == [[s[0]] + rest[0]] + rest[1..];
      }
    }
  }

  /** The pieces of a well-formed path are all non-empty, so its segments are exactly its pieces. */
  lemma SegmentsOfWellFormed(p: string)
    requires WellFormedPath(p)
    ensures Segments(p) == Split(p, '/')
  {
    StripEnds(p, Slash);
    ReplaceAbsent(p, '\\', '/');
    SplitPiecesNonEmpty(p);
    var pieces := Split(p, '/');
    assert pieces[0] != "" by {
      assert pieces[0] == [p[0]] + Split(p[1..], '/')[0];
    }
    NonEmptyKeeps(pieces);
  }

  lemma {:induction false} NonEmptyKeeps(parts: seq<string>)
    requires forall i :: 0 <= i < |parts| ==> parts[i] != ""
    ensures NonEmpty(parts) == parts
  {
    if parts != [] {
      NonEmptyKeeps(parts[1..]);
    }
  }

  /** The deepest placeholder level of a well-formed folder path is the path itself. */
  lemma LastLevelIsPath(p: string)
    requires WellFormedPath(p)
    ensures PathLevels(p) != [] && PathLevels(p)[|PathLevels(p)| - 1] == p
  {
    SegmentsOfWellFormed(p);
    var segs := Segments(p);
    assert segs[..|segs|] == segs;
    JoinSplit(p, '/');
  }
}
