/**
 * The parts of the Kotlin standard library's string handling that the app relies on:
 * `Char.isWhitespace`, `isBlank`, `trim`, `ifBlank`, `substringBefore`, `listOfNotNull`
 * and `joinToString`. Strings are sequences of characters.
 */
module KotlinText {
  import opened Wrappers

  /**
   * `Char.isWhitespace` on the JVM: `Character.isWhitespace(c) || Character.isSpaceChar(c)`,
   * i.e. the ASCII controls TAB..CR and FS..US, and every Unicode space, line and paragraph
   * separator (the no-break spaces included).
   */
  predicate IsWhitespace(c: char) {
    || ('\t' <= c <= '\r')
    || ('\U{1C}' <= c <= '\U{1F}')
    || c == ' '
    || c == '\U{A0}'
    || c == '\U{1680}'
    || ('\U{2000}' <= c <= '\U{200A}')
    || c == '\U{2028}'
    || c == '\U{2029}'
    || c == '\U{202F}'
    || c == '\U{205F}'
    || c == '\U{3000}'
  }

  /** `CharSequence.isBlank`: empty or whitespace only. */
  predicate IsBlank(s: string) {
    forall i | 0 <= i < |s| :: IsWhitespace(s[i])
  }

  /** The number of whitespace characters `s` starts with. */
  function LeadingBlank(s: string): (n: nat)
    ensures n <= |s|
    ensures forall i | 0 <= i < n :: IsWhitespace(s[i])
    ensures n == |s| || !IsWhitespace(s[n])
  {
    if |s| > 0 && IsWhitespace(s[0]) then 1 + LeadingBlank(s[1..]) else 0
  }

  /** The end of `s[..hi]` once its trailing whitespace, down to index `lo`, is dropped. */
  function TrailingEnd(s: string, lo: nat, hi: nat): (m: nat)
    requires lo <= hi <= |s|
    ensures lo <= m <= hi
    ensures forall i | m <= i < hi :: IsWhitespace(s[i])
    ensures m == lo || !IsWhitespace(s[m - 1])
    decreases hi
  {
    if hi > lo && IsWhitespace(s[hi - 1]) then TrailingEnd(s, lo, hi - 1) else hi
  }

  /**
   * `CharSequence.trim()`: the slice of `s` left once the whitespace at both ends is dropped;
   * what is dropped is whitespace, and what is left neither starts nor ends with whitespace.
   */
  function Trim(s: string): (r: string)
    ensures var k := LeadingBlank(s);
      && k + |r| <= |s|
      && r == s[k..k + |r|]
      && (forall i | 0 <= i < k :: IsWhitespace(s[i]))
      && (forall i | k + |r| <= i < |s| :: IsWhitespace(s[i]))
    ensures r == [] || (!IsWhitespace(r[0]) && !IsWhitespace(r[|r| - 1]))
  {
    var k := LeadingBlank(s);
    s[k..TrailingEnd(s, k, |s|)]
  }

  /** `ifBlank { null }` */
  function IfBlankNull(s: string): (r: Option<string>)
    ensures r.None? <==> IsBlank(s)
    ensures r.Some? ==> r.value == s
  {
    if IsBlank(s) then None else Some(s)
  }

  /**
   * `substringBefore(delimiter)` with a one-character delimiter: the part of `s` before the
   * first occurrence of `d`, or all of `s` when `d` does not occur.
   */
  function SubstringBefore(s: string, d: char): (r: string)
    ensures |r| <= |s| && r == s[..|r|]
    ensures d !in r
    ensures |r| == |s| || s[|r|] == d
  {
    if |s| == 0 || s[0] == d then [] else [s[0]] + SubstringBefore(s[1..], d)
  }

  /** `listOfNotNull(a, b)` */
  function ListOfNotNull2(a: Option<string>, b: Option<string>): (r: seq<string>)
    ensures |r| == (if a.Some? then 1 else 0) + (if b.Some? then 1 else 0)
    ensures a.Some? ==> r[0] == a.value
    ensures b.Some? ==> r[|r| - 1] == b.value
  {
    (if a.Some? then [a.value] else []) + (if b.Some? then [b.value] else [])
  }

  /** `joinToString(separator)`: the parts with `sep` between neighbours. */
  function JoinToString(parts: seq<string>, sep: string): (r: string)
    ensures parts == [] ==> r == []
    ensures |parts| == 1 ==> r == parts[0]
    ensures |parts| == 2 ==> r == parts[0] + sep + parts[1]
  {
    if parts == [] then []
    else if |parts| == 1 then parts[0]
    else parts[0] + sep + JoinToString(parts[1..], sep)
  }

  /** Trimming twice is trimming once. */
  lemma TrimIdempotent(s: string)
    ensures Trim(Trim(s)) == Trim(s)
  {
    TrimUnpadded(Trim(s));
  }

  /** When `d` first occurs at index `k`, the substring before it is `s[..k]`. */
  lemma SubstringBeforeAt(s: string, d: char, k: nat)
    requires k < |s| && s[k] == d && d !in s[..k]
    ensures SubstringBefore(s, d) == s[..k]
  {
  }

  /** A string that neither starts nor ends with whitespace is its own trim. */
  lemma TrimUnpadded(s: string)
    requires s == [] || (!IsWhitespace(s[0]) && !IsWhitespace(s[|s| - 1]))
    ensures Trim(s) == s
  {
  }
}
