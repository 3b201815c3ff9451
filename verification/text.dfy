/** String helpers of the .NET base library that the modelled code relies on:
    `String.Trim` and `String.Contains`. */
module Text {

  /** The characters `Char.IsWhiteSpace` accepts: the Unicode White_Space
      property (the ASCII controls TAB..CR, SPACE, NEL, NBSP, OGHAM SPACE MARK,
      EN QUAD..HAIR SPACE, LINE/PARAGRAPH SEPARATOR, NARROW NBSP, MEDIUM
      MATHEMATICAL SPACE and IDEOGRAPHIC SPACE). */
  predicate IsWhiteSpace(c: char) {
    || ('\U{0009}' <= c <= '\U{000D}')
    || c == ' '
    || c == '\U{0085}'
    || c == '\U{00A0}'
    || c == '\U{1680}'
    || ('\U{2000}' <= c <= '\U{200A}')
    || c == '\U{2028}'
    || c == '\U{2029}'
    || c == '\U{202F}'
    || c == '\U{205F}'
    || c == '\U{3000}'
  }

  /** The number of white-space characters `s` starts with. */
  function LeadingWhiteSpace(s: string): (n: nat)
    ensures n <= |s|
    ensures forall k | 0 <= k < n :: IsWhiteSpace(s[k])
    ensures n < |s| ==> !IsWhiteSpace(s[n])
  {
    if |s| > 0 && IsWhiteSpace(s[0]) then 1 + LeadingWhiteSpace(s[1..]) else 0
  }

  /** Where the white space `s` ends with begins. */
  function TrailingWhiteSpaceStart(s: string): (n: nat)
    ensures n <= |s|
    ensures forall k | n <= k < |s| :: IsWhiteSpace(s[k])
    ensures n > 0 ==> !IsWhiteSpace(s[n - 1])
  {
    if |s| > 0 && IsWhiteSpace(s[|s| - 1]) then TrailingWhiteSpaceStart(s[..|s| - 1]) else |s|
  }

  /** `String.TrimStart()`. */
  function TrimStart(s: string): string {
    s[LeadingWhiteSpace(s)..]
  }

  /** `String.TrimEnd()`. */
  function TrimEnd(s: string): string {
    s[..TrailingWhiteSpaceStart(s)]
  }

  /** `String.Trim()`: white space removed from both ends. */
  function Trim(s: string): string {
    TrimEnd(TrimStart(s))
  }

  /** The trimmed string is the piece of the original that starts after the
      leading white space; it neither starts nor ends with white space, and
      everything cut off on either side is white space. */
  lemma TrimShape(s: string)
    ensures var i, t := LeadingWhiteSpace(s), Trim(s);
      && i + |t| <= |s|
      && t == s[i..i + |t|]
      && (forall k | 0 <= k < i :: IsWhiteSpace(s[k]))
      && (forall k | i + |t| <= k < |s| :: IsWhiteSpace(s[k]))
      && (|t| > 0 ==> !IsWhiteSpace(t[0]) && !IsWhiteSpace(t[|t| - 1]))
  {
    TrimSlice(s);
    TrimCutsTrailingWhiteSpace(s);
    TrimEndsWithText(s);
  }

  lemma TrimSlice(s: string)
    ensures LeadingWhiteSpace(s) + |Trim(s)| <= |s|
    ensures Trim(s) == s[LeadingWhiteSpace(s)..LeadingWhiteSpace(s) + |Trim(s)|]
  {
    var i := LeadingWhiteSpace(s);
    var a := s[i..];
    var j := TrailingWhiteSpaceStart(a);
    assert Trim(s) == a[..j];
    assert a[..j] == s[i..i + j];
  }

  lemma TrimCutsTrailingWhiteSpace(s: string)
    ensures forall k | LeadingWhiteSpace(s) + |Trim(s)| <= k < |s| :: IsWhiteSpace(s[k])
  {
    var i := LeadingWhiteSpace(s);
    var a := s[i..];
    var j := TrailingWhiteSpaceStart(a);
    assert |Trim(s)| == j;
    forall k | i + j <= k < |s|
      ensures IsWhiteSpace(s[k])
    {
      assert s[k] == a[k - i];
    }
  }

  lemma TrimEndsWithText(s: string)
    ensures |Trim(s)| > 0 ==> !IsWhiteSpace(Trim(s)[0]) && !IsWhiteSpace(Trim(s)[|Trim(s)| - 1])
  {
    var i := LeadingWhiteSpace(s);
    var a := s[i..];
    var j := TrailingWhiteSpaceStart(a);
    if j > 0 {
      assert Trim(s)[0] == a[0];
      assert Trim(s)[j - 1] == a[j - 1];
    }
  }

  /** Trimming twice is the same as trimming once. */
  lemma TrimIdempotent(s: string)
    ensures Trim(Trim(s)) == Trim(s)
  {
    var t := Trim(s);
    TrimShape(s);
    assert LeadingWhiteSpace(t) == 0;
    assert TrailingWhiteSpaceStart(t) == |t|;
  }

  /** `String.Contains(pattern)`: ordinal substring search. */
  predicate Contains(s: string, pattern: string) {
    exists i | 0 <= i <= |s| - |pattern| :: OccursAt(s, pattern, i)
  }

  predicate OccursAt(s: string, pattern: string, i: nat)
    requires i + |pattern| <= |s|
  {
    s[i..i + |pattern|] == pattern
  }

  /** Every string contains each of its characters, and a one-character pattern
      is contained exactly when that character occurs. */
  lemma ContainsChar(s: string, c: char)
    ensures Contains(s, [c]) <==> c in s
  {
    if c in s {
      var i :| 0 <= i < |s| && s[i] == c;
      assert OccursAt(s, [c], i);
    }
    if Contains(s, [c]) {
      var i :| 0 <= i <= |s| - 1 && OccursAt(s, [c], i);
      assert s[i..i + 1] == [c];
      assert s[i] == c;
    }
  }

  /** `s.EndsWith(suffix)` (ordinal). */
  predicate EndsWith(s: string, suffix: string) {
    |suffix| <= |s| && s[|s| - |suffix|..] == suffix
  }

  /** A suffix of the tail is a suffix of the whole. */
  lemma EndsWithAppend(prefix: string, s: string, suffix: string)
    requires EndsWith(s, suffix)
    ensures EndsWith(prefix + s, suffix)
  {
    assert (prefix + s)[|prefix + s| - |suffix|..] == s[|s| - |suffix|..];
  }
}
