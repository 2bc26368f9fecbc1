/** Decoded JSON values and the normalisation of the API's loosely shaped identifiers. */
module Json {
  import opened Wrappers
  import opened Text

  /** A decoded JSON value. Numbers are integers; an object maps each key to its (last) value. */
  datatype Json =
    | JNull
    | JBool(b: bool)
    | JInt(i: int)
    | JStr(s: string)
    | JArr(items: seq<Json>)
    | JObj(fields: map<string, Json>)

  type Object = map<string, Json>

  /** Python truthiness of a decoded value. */
  predicate Truthy(j: Json) {
    match j
    case JNull => false
    case JBool(b) => b
    case JInt(i) => i != 0
    case JStr(s) => s != ""
    case JArr(a) => a != []
    case JObj(m) => m != map[]
  }

  /** `d.get(k)`: a missing key reads as `None`, i.e. `JNull`. */
  function Get(d: Object, k: string): Json {
    if k in d then d[k] else JNull
  }

  /** Python's `a or b`. */
  function Or(a: Json, b: Json): (r: Json)
    ensures Truthy(r) <==> Truthy(a) || Truthy(b)
    ensures Truthy(a) ==> r == a
  {
    if Truthy(a) then a else b
  }

  /** Python's `int(s)` on a string: surrounding whitespace, an optional sign, ASCII digits. */
  function ParseInt(s: string): Option<int> {
    ParseSigned(Strip(s, Whitespace))
  }

  /** `int(t)` once the surrounding whitespace is gone. */
  function ParseSigned(t: string): Option<int> {
    if t != [] && (t[0] == '-' || t[0] == '+') then
      if AllDigits(t[1..]) then
        var v: int := DigitsValue(t[1..]);
        Some(if t[0] == '-' then -v else v)
      else None
    else if AllDigits(t) then Some(DigitsValue(t))
    else None
  }

  /** Python's `int(x)`: `None` where it raises. */
  function IntOf(j: Json): Option<int> {
    match j
    case JInt(i) => Some(i)
    case JBool(b) => Some(if b then 1 else 0)
    case JStr(s) => ParseInt(s)
    case _ => None
  }

  /** Python's `str(x)` for the scalar values an identifier can take. */
  function Str(j: Json): string {
    match j
    case JNull => "None"
    case JBool(b) => if b then "True" else "False"
    case JInt(i) => IntToString(i)
    case JStr(s) => s
    case JArr(_) => "<array>"
    case JObj(_) => "<object>"
  }

  lemma {:induction false} DigitsValueSnoc(s: string, c: char)
    requires forall i :: 0 <= i < |s| ==> IsDigit(s[i])
    requires IsDigit(c)
    ensures DigitsValue(s + [c]) == 10 * DigitsValue(s) + (c as int - '0' as int)
  {
    assert (s + [c])[..|s + [c]| - 1] == s;
  }

  lemma {:induction false} DigitsValueOfDigitString(n: nat)
    ensures DigitsValue(DigitString(n)) == n
  {
    if n >= 10 {
      DigitsValueOfDigitString(n / 10);
      DigitsValueSnoc(DigitString(n / 10), ('0' as int + n % 10) as char);
    }
  }

  /** The signed parse of a minus sign followed by digits. */
  lemma ParseSignedNegative(d: string, v: int)
    requires AllDigits(d) && DigitsValue(d) == v
    ensures ParseSigned("-" + d) == Some(-v)
  {
    assert ("-" + d)[1..] == d;
  }

  /** Digits free of whitespace and sign parse to their value. */
  lemma DigitsParse(d: string, v: int)
    requires AllDigits(d) && DigitsValue(d) == v
    ensures ParseInt(d) == Some(v)
  {
    forall k | 0 <= k < |d| ensures !InClass(d[k], Whitespace) {
      assert IsDigit(d[k]);
    }
    StripNone(d, Whitespace);
  }

  /** A minus sign followed by digits has no surrounding whitespace to strip. */
  lemma NegativeDigitsStripped(d: string)
    requires AllDigits(d)
    ensures Strip("-" + d, Whitespace) == "-" + d
  {
    var s := "-" + d;
    forall k | 0 <= k < |s| ensures !InClass(s[k], Whitespace) {
      if k > 0 {
        assert s[k] == d[k - 1];
        assert IsDigit(d[k - 1]);
      }
    }
    StripNone(s, Whitespace);
  }

  /** A minus sign followed by digits parses to the negated value. */
  lemma NegativeDigitsParse(d: string, v: int)
    requires AllDigits(d) && DigitsValue(d) == v
    ensures ParseInt("-" + d) == Some(-v)
  {
    NegativeDigitsStripped(d);
    ParseSignedNegative(d, v);
  }

  /** `int(str(i)) == i`: the decimal text of an integer parses back to it. */
  lemma ParseIntOfIntToString(i: int)
    ensures ParseInt(IntToString(i)) == Some(i)
  {
    if i < 0 {
      NegativeRoundTrip(i);
    } else {
      NonNegativeRoundTrip(i);
    }
  }

  lemma NegativeRoundTrip(i: int)
    requires i < 0
    ensures ParseInt(IntToString(i)) == Some(i)
  {
    var d := DigitString(-i);
    DigitsValueOfDigitString(-i);
    NegativeDigitsParse(d, -i);
    assert IntToString(i) == "-" + d;
  }

  lemma NonNegativeRoundTrip(i: int)
    requires i >= 0
    ensures ParseInt(IntToString(i)) == Some(i)
  {
    var d := DigitString(i);
    DigitsValueOfDigitString(i);
    DigitsParse(d, i);
    assert IntToString(i) == d;
  }

  /** The `native` member of a `{"native": ...}` wrapper, when it is present and not null. */
  function Native(j: Json): Option<Json> {
    if j.JObj? && "native" in j.fields && j.fields["native"] != JNull then Some(j.fields["native"]) else None
  }

  /** One structured parent field: an object whose non-null `native` converts to an int. */
  function NativeInt(d: Object, key: string): (r: Option<int>)
    ensures r.Some? <==> Native(Get(d, key)).Some? && IntOf(Native(Get(d, key)).value).Some?
    ensures Native(Get(d, key)).Some? ==> r == IntOf(Native(Get(d, key)).value)
  {
    match Native(Get(d, key))
    case Some(n) => IntOf(n)
    case None => None
  }

  /** The longest prefix of `s` made of ASCII digits. */
  function LeadingDigits(s: string): (r: string)
    ensures r <= s
    ensures forall i :: 0 <= i < |r| ==> IsDigit(r[i])
    ensures |r| < |s| ==> !IsDigit(s[|r|])
  {
    if s != [] && IsDigit(s[0]) then [s[0]] + LeadingDigits(s[1..]) else []
  }

  /** `re.search(r"/folders/(\d+)", s)` at position `i`. */
  predicate FolderLinkAt(s: string, i: nat) {
    i + 10 <= |s| && s[i..i + 9] == "/folders/" && IsDigit(s[i + 9])
  }

  /** `i` is where the leftmost `/folders/<digits>` match starts. */
  predicate FirstFolderLinkAt(s: string, i: nat) {
    FolderLinkAt(s, i) && forall j: nat :: j < i ==> !FolderLinkAt(s, j)
  }

  /** The digits of the leftmost `/folders/<digits>` match, as an int. */
  function FolderLinkId(s: string): (r: Option<int>)
    ensures r.Some? <==> exists i: nat :: FolderLinkAt(s, i)
    ensures r.Some? ==> exists i: nat :: FirstFolderLinkAt(s, i) && r.value == DigitsValue(LeadingDigits(s[i + 9..]))
    decreases |s|
  {
    if |s| < 10 then
      None
    else if FolderLinkAt(s, 0) then
      assert FirstFolderLinkAt(s, 0) && s[0 + 9..] == s[9..];
      Some(DigitsValue(LeadingDigits(s[9..])))
    else
      var r := FolderLinkId(s[1..]);
      assert forall i: nat | i >= 1 :: FolderLinkAt(s, i) <==> FolderLinkAt(s[1..], i - 1) by {
        forall i: nat | i >= 1 ensures FolderLinkAt(s, i) <==> FolderLinkAt(s[1..], i - 1) {
          if i + 10 <= |s| {
            assert s[i..i + 9] == s[1..][i - 1..i + 8];
          }
        }
      }
      assert !FolderLinkAt(s, 0);
      if r.Some? then
        var i: nat :| FirstFolderLinkAt(s[1..], i) && r.value == DigitsValue(LeadingDigits(s[1..][i + 9..]));
        assert FirstFolderLinkAt(s, i + 1);
        assert s[1..][i + 9..] == s[i + 1 + 9..];
        r
      else
        r
  }

  /** The `links.parent` fallback: `None` when `links` or `parent` has a shape that makes Python raise. */
  function LinkParent(d: Object): Option<int> {
    var links := Or(Get(d, "links"), JObj(map[]));
    if !links.JObj? then None
    else
      var parent := Or(Get(links.fields, "parent"), JStr(""));
      if !parent.JStr? then None else FolderLinkId(parent.s)
  }

  /** `_extract_parent_id_from_folder_payload`: structured fields in order, then the link. */
  function ExtractParentId(d: Object): (r: Option<int>)
    ensures NativeInt(d, "parentId").Some? ==> r == NativeInt(d, "parentId")
    ensures NativeInt(d, "parentId").None? && NativeInt(d, "parentFolderId").Some? ==> r == NativeInt(d, "parentFolderId")
    ensures NativeInt(d, "parentId").None? && NativeInt(d, "parentFolderId").None? && NativeInt(d, "parentFolder").Some?
            ==> r == NativeInt(d, "parentFolder")
    ensures NativeInt(d, "parentId").None? && NativeInt(d, "parentFolderId").None? && NativeInt(d, "parentFolder").None?
            ==> r == LinkParent(d)
  {
    var a := NativeInt(d, "parentId");
    if a.Some? then a
    else
      var b := NativeInt(d, "parentFolderId");
      if b.Some? then b
      else
        var c := NativeInt(d, "parentFolder");
        if c.Some? then c else LinkParent(d)
  }

  /** Python's `int(raw) if raw is not None else 0`, with a failed conversion also giving 0. */
  function IntOr0(j: Json): int {
    IntOf(j).GetOr(0)
  }

  /** `extract_project_id`: `projectId or ProjectId or payload.projectId or recordId`, 0 on failure. */
  function ExtractProjectId(body: Object): (pid: int)
    ensures Truthy(Get(body, "projectId")) ==> pid == IntOr0(Get(body, "projectId"))
    ensures !Truthy(Get(body, "projectId")) && Truthy(Get(body, "ProjectId")) ==> pid == IntOr0(Get(body, "ProjectId"))
    ensures !Truthy(Get(body, "projectId")) && !Truthy(Get(body, "ProjectId")) && "payload" in body && !body["payload"].JObj?
            ==> pid == 0
    ensures !Truthy(Get(body, "projectId")) && !Truthy(Get(body, "ProjectId")) && "payload" !in body
            ==> pid == IntOr0(Get(body, "recordId"))
    ensures !Truthy(Get(body, "projectId")) && !Truthy(Get(body, "ProjectId")) && "payload" in body && body["payload"].JObj?
            ==> pid == IntOr0(Or(Get(body["payload"].fields, "projectId"), Get(body, "recordId")))
  {
    var a := Get(body, "projectId");
    if Truthy(a) then IntOr0(a)
    else
      var b := Get(body, "ProjectId");
      if Truthy(b) then IntOr0(b)
      else
        var p := if "payload" in body then body["payload"] else JObj(map[]);
        if !p.JObj? then 0
        else
          var c := Get(p.fields, "projectId");
          if Truthy(c) then IntOr0(c) else IntOr0(Get(body, "recordId"))
  }
}
