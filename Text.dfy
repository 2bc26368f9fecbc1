/** Character classes and string operations of Python's `str` that the core relies on. */
module Text {

  /** Python's `str.isspace()`, which is also what `\s` matches in a `str` regular expression. */
  predicate IsSpace(c: char) {
    c == ' ' || ('\t' <= c <= '\r') || ('\U{1c}' <= c <= '\U{1f}')
    || c == '\U{85}' || c == '\U{a0}' || c == '\U{1680}' || ('\U{2000}' <= c <= '\U{200a}')
    || c == '\U{2028}' || c == '\U{2029}' || c == '\U{202f}' || c == '\U{205f}' || c == '\U{3000}'
  }

  predicate IsDigit(c: char) { '0' <= c <= '9' }

  /** Lower-casing of ASCII letters; every other character is kept. */
  function LowerChar(c: char): (r: char)
    ensures 'A' <= c <= 'Z' ==> r as int == c as int + 32
    ensures !('A' <= c <= 'Z') ==> r == c
  {
    if 'A' <= c <= 'Z' then (c as int + 32) as char else c
  }

  function Lower(s: string): (r: string)
    ensures |r| == |s|
    ensures forall i :: 0 <= i < |s| ==> r[i] == LowerChar(s[i])
  {
    if s == [] then [] else [LowerChar(s[0])] + Lower(s[1..])
  }

  predicate StartsWith(s: string, p: string) { p <= s }

  predicate EndsWith(s: string, p: string) {
    |p| <= |s| && s[|s| - |p|..] == p
  }

  /** `t in s` for strings: `t` occurs in `s` at some position. */
  predicate OccursAt(s: string, t: string, i: int) {
    0 <= i && i + |t| <= |s| && s[i..i + |t|] == t
  }

  lemma TailSlice(s: string, a: nat, b: nat)
    requires s != [] && a <= b <= |s| - 1
    ensures s[1..][a..b] == s[a + 1..b + 1]
  {
    assert |s[1..][a..b]| == |s[a + 1..b + 1]|;
    forall k | 0 <= k < b - a ensures s[1..][a..b][k] == s[a + 1..b + 1][k] {
      assert s[1..][a..b][k] == s[1..][a + k] == s[a + 1 + k];
    }
  }

  function Contains(s: string, t: string): (b: bool)
    ensures b <==> exists i :: OccursAt(s, t, i)
    decreases |s|
  {
    if t <= s then
      assert OccursAt(s, t, 0);
      true
    else if s == [] then
      assert forall i :: !OccursAt(s, t, i);
      false
    else
      var b := Contains(s[1..], t);
      assert forall i :: 1 <= i ==> (OccursAt(s, t, i) <==> OccursAt(s[1..], t, i - 1)) by {
        forall i | 1 <= i
          ensures OccursAt(s, t, i) <==> OccursAt(s[1..], t, i - 1)
        {
          if i + |t| <= |s| {
            TailSlice(s, i - 1, i - 1 + |t|);
          }
        }
      }
      assert !OccursAt(s, t, 0);
      if b then
        var i :| OccursAt(s[1..], t, i);
        assert OccursAt(s, t, i + 1);
        true
      else
        false
  }

  /** The character sets the source strips from the ends of strings. */
  datatype CharClass = Whitespace | Dot | Slash | SlashOrBackslash

  predicate InClass(c: char, k: CharClass) {
    match k
    case Whitespace => IsSpace(c)
    case Dot => c == '.'
    case Slash => c == '/'
    case SlashOrBackslash => c == '/' || c == '\\'
  }

  /** Removes the leading characters of class `k`. */
  function TrimStart(s: string, k: CharClass): (r: string)
    ensures r == [] || !InClass(r[0], k)
    ensures |r| <= |s| && r == s[|s| - |r|..]
    ensures forall i :: 0 <= i < |s| - |r| ==> InClass(s[i], k)
  {
    if s != [] && InClass(s[0], k) then TrimStart(s[1..], k) else s
  }

  /** Removes the trailing characters of class `k`. */
  function TrimEnd(s: string, k: CharClass): (r: string)
    ensures r == [] || !InClass(r[|r| - 1], k)
    ensures |r| <= |s| && r == s[..|r|]
    ensures forall i :: |r| <= i < |s| ==> InClass(s[i], k)
  {
    if s != [] && InClass(s[|s| - 1], k) then TrimEnd(s[..|s| - 1], k) else s
  }

  /** Python's `str.strip(chars)`: both ends. */
  function Strip(s: string, k: CharClass): (r: string)
    ensures r == [] || (!InClass(r[0], k) && !InClass(r[|r| - 1], k))
  {
    TrimEnd(TrimStart(s, k), k)
  }

  lemma TrimStartSkip(s: string, k: CharClass)
    requires s != [] && InClass(s[0], k)
    ensures TrimStart(s, k) == TrimStart(s[1..], k)
  {
  }

  lemma TrimStartStop(s: string, k: CharClass)
    requires s == [] || !InClass(s[0], k)
    ensures TrimStart(s, k) == s
  {
  }

  lemma TrimEndSkip(s: string, k: CharClass)
    requires s != [] && InClass(s[|s| - 1], k)
    ensures TrimEnd(s, k) == TrimEnd(s[..|s| - 1], k)
  {
  }

  /** A string whose two ends are outside class `k` is its own strip. */
  lemma StripEnds(s: string, k: CharClass)
    requires s == [] || (!InClass(s[0], k) && !InClass(s[|s| - 1], k))
    ensures Strip(s, k) == s
  {
    assert TrimStart(s, k) == s;
  }

  /** A string none of whose characters is of class `k` is its own strip. */
  lemma StripNone(s: string, k: CharClass)
    requires forall i :: 0 <= i < |s| ==> !InClass(s[i], k)
    ensures Strip(s, k) == s
  {
    assert s == [] || !InClass(s[0], k);
    assert TrimStart(s, k) == s;
    assert s == [] || !InClass(s[|s| - 1], k);
  }

  /** Replaces every occurrence of character `a` by `b`. */
  function Replace(s: string, a: char, b: char): (r: string)
    ensures |r| == |s|
    ensures forall i :: 0 <= i < |s| ==> r[i] == if s[i] == a then b else s[i]
  {
    if s == [] then [] else [if s[0] == a then b else s[0]] + Replace(s[1..], a, b)
  }

  lemma ReplaceAbsent(s: string, a: char, b: char)
    requires a !in s
    ensures Replace(s, a, b) == s
  {
  }

  /** Python's `s.split(sep)` for a one-character separator: never empty, keeps empty pieces. */
  function Split(s: string, sep: char): (r: seq<string>)
    ensures |r| >= 1
    ensures forall i :: 0 <= i < |r| ==> sep !in r[i]
  {
    if s == [] then [""]
    else if s[0] == sep then [""] + Split(s[1..], sep)
    else
      var rest := Split(s[1..], sep);
      [[s[0]] + rest[0]] + rest[1..]
  }

  /** Python's `sep.join(parts)`. */
  function Join(parts: seq<string>, sep: string): string {
    if parts == [] then ""
    else if |parts| == 1 then parts[0]
    else parts[0] + sep + Join(parts[1..], sep)
  }

  /** Keeps the non-empty strings, in order. */
  function NonEmpty(parts: seq<string>): (r: seq<string>)
    ensures forall i :: 0 <= i < |r| ==> r[i] != ""
    ensures forall x :: x in r <==> x in parts && x != ""
  {
    if parts == [] then []
    else if parts[0] == "" then NonEmpty(parts[1..])
    else [parts[0]] + NonEmpty(parts[1..])
  }

  function DigitString(n: nat): (s: string)
    ensures s != [] && forall i :: 0 <= i < |s| ==> IsDigit(s[i])
  {
    if n < 10 then [('0' as int + n) as char] else DigitString(n / 10) + [('0' as int + n % 10) as char]
  }

  /** Python's `str(i)` for an integer. */
  function IntToString(i: int): string {
    if i < 0 then "-" + DigitString(-i) else DigitString(i)
  }

  function DigitsValue(s: string): nat
    requires forall i :: 0 <= i < |s| ==> IsDigit(s[i])
  {
    if s == [] then 0
    else
      assert IsDigit(s[|s| - 1]);
      10 * DigitsValue(s[..|s| - 1]) + (s[|s| - 1] as int - '0' as int)
  }

  predicate AllDigits(s: string) { s != [] && forall i :: 0 <= i < |s| ==> IsDigit(s[i]) }
}
