/** The QString operations the calculator relies on: substring search from the
    front (contains) and from the back (lastIndexOf), endsWith, and trimmed. */
module Strings {

  /** `pat` occurs in `s` starting at index `i`. */
  predicate OccursAt(s: string, pat: string, i: int)
  {
    0 <= i && i + |pat| <= |s| && s[i..i + |pat|] == pat
  }

  /** QString::indexOf(pat, from = i): the first occurrence at or after `i`, or -1. */
  function IndexFrom(s: string, pat: string, i: nat): (r: int)
    ensures r == -1 || (i <= r && OccursAt(s, pat, r))
    ensures forall j :: i <= j && (r == -1 || j < r) ==> !OccursAt(s, pat, j)
    decreases |s| - i
  {
    if i + |pat| > |s| then -1
    else if OccursAt(s, pat, i) then i
    else IndexFrom(s, pat, i + 1)
  }

  /** QString::contains(pat): indexOf(pat) != -1, which holds exactly when
      the pattern occurs somewhere. */
  predicate Contains(s: string, pat: string): (r: bool)
    ensures r <==> exists i :: OccursAt(s, pat, i)
  {
    IndexFrom(s, pat, 0) != -1
  }

  /** Searching for a one-character string is membership of that character. */
  lemma ContainsChar(s: string, c: char)
    ensures Contains(s, [c]) <==> c in s
  {
    if c in s {
      var i :| 0 <= i < |s| && s[i] == c;
      assert s[i..i + 1] == [c];
      assert OccursAt(s, [c], i);
    }
    if Contains(s, [c]) {
      var i := IndexFrom(s, [c], 0);
      assert s[i..i + 1][0] == s[i];
    }
  }

  /** The last occurrence at or before index `i`, or -1. */
  function LastIndexFrom(s: string, pat: string, i: int): (r: int)
    ensures r == -1 || (0 <= r <= i && OccursAt(s, pat, r))
    ensures forall j :: r < j <= i ==> !OccursAt(s, pat, j)
    decreases i
  {
    if i < 0 then -1
    else if OccursAt(s, pat, i) then i
    else LastIndexFrom(s, pat, i - 1)
  }

  /** QString::lastIndexOf(pat): the position of the last occurrence, or -1. */
  function LastIndexOf(s: string, pat: string): (r: int)
    ensures r == -1 ==> forall j :: !OccursAt(s, pat, j)
    ensures r != -1 ==> OccursAt(s, pat, r) && forall j :: r < j ==> !OccursAt(s, pat, j)
  {
    LastIndexFrom(s, pat, |s| - |pat|)
  }

  /** QString::endsWith(suffix): `s` is some text followed by `suffix`. */
  predicate EndsWith(s: string, suffix: string): (r: bool)
    ensures r <==> |suffix| <= |s| && s == s[..|s| - |suffix|] + suffix
  {
    |suffix| <= |s| && s[|s| - |suffix|..] == suffix
  }

  /** QChar::isSpace: the ASCII white space characters 9..13 and 32, and the
      Unicode separators U+0085, U+00A0, U+1680, U+2000..U+200A, U+2028,
      U+2029, U+202F, U+205F and U+3000. */
  predicate IsSpace(c: char)
  {
    c == ' ' || ('\t' <= c <= '\r') || c == '\U{0085}' || c == '\U{00A0}' || c == '\U{1680}'
    || ('\U{2000}' <= c <= '\U{200A}') || c == '\U{2028}' || c == '\U{2029}'
    || c == '\U{202F}' || c == '\U{205F}' || c == '\U{3000}'
  }

  /** Drops the leading white space. */
  function TrimStart(s: string): (r: string)
    ensures |r| <= |s| && r == s[|s| - |r|..]
    ensures r != [] ==> !IsSpace(r[0])
    ensures forall k :: 0 <= k < |s| - |r| ==> IsSpace(s[k])
  {
    if s != [] && IsSpace(s[0]) then TrimStart(s[1..]) else s
  }

  /** Drops the trailing white space. */
  function TrimEnd(s: string): (r: string)
    ensures |r| <= |s| && r == s[..|r|]
    ensures r != [] ==> !IsSpace(r[|r| - 1])
    ensures forall k :: |r| <= k < |s| ==> IsSpace(s[k])
  {
    if s != [] && IsSpace(s[|s| - 1]) then TrimEnd(s[..|s| - 1]) else s
  }

  /** QString::trimmed: white space removed from both ends. */
  function Trimmed(s: string): (r: string)
    ensures r != [] ==> !IsSpace(r[0]) && !IsSpace(r[|r| - 1])
    ensures |r| <= |s|
  {
    TrimEnd(TrimStart(s))
  }

  /** Trimming removes white space and nothing else: the result is the slice
      of `s` that starts after the leading white space, and everything outside
      that slice is white space. */
  lemma TrimmedRemovesOnlySpace(s: string)
    ensures var r, a := Trimmed(s), |s| - |TrimStart(s)|;
      a + |r| <= |s| && r == s[a..a + |r|]
      && (forall k :: 0 <= k < a ==> IsSpace(s[k]))
      && (forall k :: a + |r| <= k < |s| ==> IsSpace(s[k]))
  {
  }

  /** A string without white space at either end is left as it is. */
  lemma TrimmedFixpoint(s: string)
    requires s != [] ==> !IsSpace(s[0]) && !IsSpace(s[|s| - 1])
    ensures Trimmed(s) == s
  {
  }

  /** Trimming twice is trimming once. */
  lemma TrimmedIdempotent(s: string)
    ensures Trimmed(Trimmed(s)) == Trimmed(s)
  {
    TrimmedFixpoint(Trimmed(s));
  }
}
