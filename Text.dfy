/** Character classes and case-insensitive comparison, as the configuration
    reader (Java) and the configuration communicator (C++) use them. */
module Text {

  /** java.lang.Character.isWhitespace: the characters of the Unicode space,
      line and paragraph separator categories other than the three no-break
      spaces U+00A0, U+2007 and U+202F, plus the control characters U+0009 to
      U+000D and U+001C to U+001F. */
  predicate IsWhitespace(c: char)
  {
    var n := c as int;
    || 0x09 <= n <= 0x0D
    || 0x1C <= n <= 0x20
    || n == 0x1680
    || 0x2000 <= n <= 0x2006
    || 0x2008 <= n <= 0x200A
    || n == 0x2028 || n == 0x2029
    || n == 0x205F || n == 0x3000
  }

  /** Lower-case mapping of the ASCII letters; every other character is its
      own lower case. */
  function LowerAscii(c: char): (r: char)
    ensures 'A' <= c <= 'Z' ==> 'a' <= r <= 'z' && r as int == c as int + 32
    ensures !('A' <= c <= 'Z') ==> r == c
  {
    if 'A' <= c <= 'Z' then (c as int + 32) as char else c
  }

  function Lower(s: string): (r: string)
    ensures |r| == |s| && forall i :: 0 <= i < |s| ==> r[i] == LowerAscii(s[i])
  {
    seq(|s|, i requires 0 <= i < |s| => LowerAscii(s[i]))
  }

  /** String.equalsIgnoreCase and strcasecmp(...) == 0 over ASCII. */
  predicate EqualsIgnoreCase(a: string, b: string)
  {
    |a| == |b| && forall i :: 0 <= i < |a| ==> LowerAscii(a[i]) == LowerAscii(b[i])
  }

  /** Two strings are equal ignoring case exactly when their lower-case forms
      are equal. */
  lemma EqualsIgnoreCaseIffLower(a: string, b: string)
    ensures EqualsIgnoreCase(a, b) <==> Lower(a) == Lower(b)
  {
    if Lower(a) == Lower(b) {
      assert |a| == |b|;
      forall i | 0 <= i < |a|
        ensures LowerAscii(a[i]) == LowerAscii(b[i])
      {
        assert Lower(a)[i] == Lower(b)[i];
      }
    }
  }

  /** The comparison is an equivalence. */
  lemma EqualsIgnoreCaseEquivalence(a: string, b: string, c: string)
    ensures EqualsIgnoreCase(a, a)
    ensures EqualsIgnoreCase(a, b) ==> EqualsIgnoreCase(b, a)
    ensures EqualsIgnoreCase(a, b) && EqualsIgnoreCase(b, c) ==> EqualsIgnoreCase(a, c)
  {
  }

  /** What a C function receiving s.c_str() sees: the prefix before the first
      NUL character. */
  function CString(s: string): (r: string)
    ensures |r| <= |s| && r == s[..|r|]
    ensures '\0' !in r
    ensures |r| < |s| ==> s[|r|] == '\0'
  {
    if s == [] then []
    else if s[0] == '\0' then []
    else [s[0]] + CString(s[1..])
  }
}
