/**
  * The string operations the screens rely on: Foundation's
  * `trimmingCharacters(in: .whitespacesAndNewlines)`, `joined(separator:)`,
  * and case-insensitive equality and containment (ASCII case folding).
  */
module Text {

  /** `CharacterSet.whitespacesAndNewlines`: Unicode categories Zs, Zl, Zp, tab, U+000A..U+000D, U+0085. */
  predicate IsWhitespace(c: char) {
    || c == ' ' || c == '\t' || ('\n' <= c <= '\r')
    || c == '\U{0085}' || c == '\U{00A0}' || c == '\U{1680}'
    || ('\U{2000}' <= c <= '\U{200A}')
    || c == '\U{2028}' || c == '\U{2029}' || c == '\U{202F}' || c == '\U{205F}' || c == '\U{3000}'
  }

  predicate AllWhitespace(s: string) {
    forall i :: 0 <= i < |s| ==> IsWhitespace(s[i])
  }

  /** Number of whitespace characters at the start of `s`. */
  function LeadingWhitespace(s: string): (n: nat)
    ensures n <= |s|
    ensures forall i :: 0 <= i < n ==> IsWhitespace(s[i])
    ensures n < |s| ==> !IsWhitespace(s[n])
  {
    if s == [] || !IsWhitespace(s[0]) then 0 else 1 + LeadingWhitespace(s[1..])
  }

  /** Number of whitespace characters at the end of `s`. */
  function TrailingWhitespace(s: string): (n: nat)
    ensures n <= |s|
    ensures forall i :: |s| - n <= i < |s| ==> IsWhitespace(s[i])
    ensures n < |s| ==> !IsWhitespace(s[|s| - 1 - n])
  {
    if s == [] || !IsWhitespace(s[|s| - 1]) then 0 else 1 + TrailingWhitespace(s[..|s| - 1])
  }

  /** Neither end of `s` is whitespace. */
  predicate IsTrimmed(s: string) {
    s != [] ==> !IsWhitespace(s[0]) && !IsWhitespace(s[|s| - 1])
  }

  /** `trimmingCharacters(in: .whitespacesAndNewlines)`. */
  function Trim(s: string): (r: string)
    ensures |r| <= |s|
    ensures r == [] <==> AllWhitespace(s)
    ensures IsTrimmed(r)
    ensures LeadingWhitespace(s) + |r| <= |s| && r == s[LeadingWhitespace(s)..LeadingWhitespace(s) + |r|]
    ensures AllWhitespace(s[LeadingWhitespace(s) + |r|..])
  {
    var k := LeadingWhitespace(s);
    var t := s[k..];
    var r := t[..|t| - TrailingWhitespace(t)];
    assert r == s[k..k + |r|];
    r
  }

  /** A string that starts and ends with a non-whitespace character is left alone by `Trim`. */
  lemma TrimClean(s: string)
    requires IsTrimmed(s)
    ensures Trim(s) == s
  {
    if s != [] {
      assert LeadingWhitespace(s) == 0;
      assert TrailingWhitespace(s) == 0;
    }
  }

  /** Trimming twice is trimming once. */
  lemma TrimIdempotent(s: string)
    ensures Trim(Trim(s)) == Trim(s)
  {
    TrimClean(Trim(s));
  }

  /** `joined(separator: " ")`. */
  function JoinWithSpaces(words: seq<string>): (r: string)
  {
    if words == [] then []
    else if |words| == 1 then words[0]
    else words[0] + " " + JoinWithSpaces(words[1..])
  }

  /** Joining puts exactly one space between consecutive words and nothing around them. */
  lemma {:induction false} JoinAppend(words: seq<string>, w: string)
    ensures JoinWithSpaces(words + [w]) == if words == [] then w else JoinWithSpaces(words) + " " + w
  {
    if |words| > 1 {
      assert (words + [w])[1..] == words[1..] + [w];
      JoinAppend(words[1..], w);
    } else if |words| == 1 {
      assert (words + [w])[1..] == [w];
    }
  }

  /** The length of a join is the words' lengths plus one separator between each neighbouring pair. */
  function TotalLength(words: seq<string>): nat {
    if words == [] then 0 else |words[0]| + TotalLength(words[1..])
  }

  lemma {:induction false} JoinLength(words: seq<string>)
    requires words != []
    ensures |JoinWithSpaces(words)| == TotalLength(words) + |words| - 1
  {
    if |words| > 1 {
      JoinLength(words[1..]);
    }
  }

  predicate IsUpperAscii(c: char) { 'A' <= c <= 'Z' }
  predicate IsLowerAscii(c: char) { 'a' <= c <= 'z' }

  /** Lower-case folding of one character (ASCII letters only). */
  function ToLower(c: char): (r: char)
    ensures IsUpperAscii(c) ==> IsLowerAscii(r) && r as int == c as int + 32
    ensures !IsUpperAscii(c) ==> r == c
  {
    if IsUpperAscii(c) then (c as int + 32) as char else c
  }

  /** Upper-case folding of one character (ASCII letters only). */
  function ToUpper(c: char): (r: char)
    ensures IsLowerAscii(c) ==> IsUpperAscii(r) && r as int == c as int - 32
    ensures !IsLowerAscii(c) ==> r == c
  {
    if IsLowerAscii(c) then (c as int - 32) as char else c
  }

  /** Upper-casing keeps whitespace and non-whitespace apart and is idempotent. */
  lemma ToUpperFacts(c: char)
    ensures IsWhitespace(ToUpper(c)) <==> IsWhitespace(c)
    ensures ToUpper(ToUpper(c)) == ToUpper(c)
  {
  }

  function Lower(s: string): (r: string)
    ensures |r| == |s|
    ensures forall i :: 0 <= i < |s| ==> r[i] == ToLower(s[i])
  {
    seq(|s|, i requires 0 <= i < |s| => ToLower(s[i]))
  }

  /** Folding leaves no upper-case ASCII letter behind, so folding again changes nothing. */
  lemma LowerFacts(s: string)
    ensures forall i :: 0 <= i < |s| ==> !IsUpperAscii(Lower(s)[i])
    ensures Lower(Lower(s)) == Lower(s)
    ensures EqualsIgnoringCase(s, Lower(s))
  {
    assert forall i :: 0 <= i < |s| ==> Lower(Lower(s))[i] == Lower(s)[i];
  }

  /** Folding works character by character, so it distributes over concatenation. */
  lemma LowerAppend(a: string, b: string)
    ensures Lower(a + b) == Lower(a) + Lower(b)
  {
    assert forall i :: 0 <= i < |a + b| ==> Lower(a + b)[i] == (Lower(a) + Lower(b))[i];
  }

  /** `localizedCaseInsensitiveCompare(_:) == .orderedSame`. */
  predicate EqualsIgnoringCase(a: string, b: string) {
    Lower(a) == Lower(b)
  }

  /** `needle` occurs in `haystack` as a contiguous run. */
  predicate IsInfix(needle: string, haystack: string)
    decreases |haystack|
  {
    needle <= haystack || (haystack != [] && IsInfix(needle, haystack[1..]))
  }

  /** `localizedCaseInsensitiveContains(_:)`. */
  predicate ContainsIgnoringCase(haystack: string, needle: string) {
    IsInfix(Lower(needle), Lower(haystack))
  }
}
