/** The three operations of Go's `strings` package that input resolution relies on:
    `ReplaceAll` (with a one-character pattern), `ToTitle` and `TrimSpace`.
    The model is ASCII only: title-casing maps 'a'..'z' to 'A'..'Z' and leaves every
    other character alone, and white space is the six ASCII characters
    space, tab, line feed, vertical tab, form feed and carriage return.
 */
module Strings {

  /** ASCII white space as `strings.TrimSpace` sees it. */
  predicate IsSpace(c: char) {
    c == ' ' || c == '\t' || c == '\n' || c == '\U{000B}' || c == '\U{000C}' || c == '\r'
  }

  predicate IsLower(c: char) {
    'a' <= c <= 'z'
  }

  /** Title case of one ASCII character; the identity outside 'a'..'z'. */
  function Upper(c: char): (u: char)
    ensures !IsLower(u)
    ensures IsLower(c) ==> u as int == c as int - 32
    ensures !IsLower(c) ==> u == c
  {
    if IsLower(c) then (c as int - 32) as char else c
  }

  /** `strings.ReplaceAll(s, [from], [to])`: every occurrence of `from` becomes `to`,
      and every other character is kept in place. */
  function ReplaceAll(s: string, from: char, to: char): (r: string)
    ensures |r| == |s|
    ensures forall i :: 0 <= i < |s| && s[i] == from ==> r[i] == to
    ensures forall i :: 0 <= i < |s| && s[i] != from ==> r[i] == s[i]
    ensures from != to ==> from !in r
  {
    if |s| == 0 then []
    else [if s[0] == from then to else s[0]] + ReplaceAll(s[1..], from, to)
  }

  /** `strings.ToTitle(s)`: every character mapped to its title case, in place. */
  function ToTitle(s: string): (r: string)
    ensures |r| == |s|
    ensures forall i :: 0 <= i < |s| ==> r[i] == Upper(s[i])
    ensures forall i :: 0 <= i < |r| ==> !IsLower(r[i])
  {
    if |s| == 0 then [] else [Upper(s[0])] + ToTitle(s[1..])
  }

  /** Title-casing a string that has no lower-case letter leaves it unchanged;
      in particular ToTitle is idempotent. */
  lemma ToTitleFixesUpper(s: string)
    requires forall i :: 0 <= i < |s| ==> !IsLower(s[i])
    ensures ToTitle(s) == s
  {
    var r := ToTitle(s);
    assert forall i :: 0 <= i < |s| ==> r[i] == s[i];
  }

  /** `strings.ReplaceAll` with a character that does not occur is the identity. */
  lemma ReplaceAllAbsent(s: string, from: char, to: char)
    requires from !in s
    ensures ReplaceAll(s, from, to) == s
  {
    var r := ReplaceAll(s, from, to);
    forall i | 0 <= i < |s|
      ensures r[i] == s[i]
    {
      assert s[i] != from;
    }
  }

  /** Neither end of `r` is white space. */
  predicate NoEdgeSpace(r: string) {
    |r| == 0 || (!IsSpace(r[0]) && !IsSpace(r[|r| - 1]))
  }

  /** `r` occurs in `s` as the contiguous slice starting at `lo`. */
  predicate SliceAt(s: string, r: string, lo: int) {
    0 <= lo && lo + |r| <= |s| && r == s[lo..lo + |r|]
  }

  /** The reference meaning of trimming: `r` is the slice of `s` that starts at `lo`,
      everything of `s` before and after that slice is white space, and `r` itself
      neither starts nor ends with white space. */
  predicate TrimmedAt(s: string, r: string, lo: int) {
    && SliceAt(s, r, lo)
    && (forall i :: 0 <= i < lo ==> IsSpace(s[i]))
    && (forall i :: lo + |r| <= i < |s| ==> IsSpace(s[i]))
    && NoEdgeSpace(r)
  }

  /** Drops the leading white space of `s`. */
  function TrimLeft(s: string): (r: string)
    ensures |r| <= |s|
    ensures r == s[|s| - |r|..]
    ensures forall i :: 0 <= i < |s| - |r| ==> IsSpace(s[i])
    ensures |r| > 0 ==> !IsSpace(r[0])
  {
    if |s| > 0 && IsSpace(s[0]) then TrimLeft(s[1..]) else s
  }

  /** Drops the trailing white space of `s`. */
  function TrimRight(s: string): (r: string)
    ensures |r| <= |s|
    ensures r == s[..|r|]
    ensures forall i :: |r| <= i < |s| ==> IsSpace(s[i])
    ensures |r| > 0 ==> !IsSpace(r[|r| - 1])
  {
    if |s| > 0 && IsSpace(s[|s| - 1]) then TrimRight(s[..|s| - 1]) else s
  }

  /** `strings.TrimSpace(s)`: the slice of `s` with leading and trailing white space
      removed. */
  function TrimSpace(s: string): (r: string)
    ensures |r| <= |s|
    ensures NoEdgeSpace(r)
    ensures exists lo :: TrimmedAt(s, r, lo)
  {
    var t := TrimLeft(s);
    var r := TrimRight(t);
    assert TrimmedAt(s, r, |s| - |t|);
    r
  }

  /** Only one string can be a trimming of `s`: whatever the starting point,
      two strings that both satisfy TrimmedAt are equal. */
  lemma TrimmedAtUnique(s: string, r1: string, lo1: int, r2: string, lo2: int)
    requires TrimmedAt(s, r1, lo1)
    requires TrimmedAt(s, r2, lo2)
    ensures r1 == r2
  {
    // When one of the two is empty, `s` is all white space and the other cannot
    // start with a non-space character; the verifier sees that unaided.
    if |r1| > 0 && |r2| > 0 {
      assert s[lo1] == r1[0] && s[lo2] == r2[0];
      assert lo1 == lo2;
      var hi1, hi2 := lo1 + |r1|, lo2 + |r2|;
      assert s[hi1 - 1] == r1[|r1| - 1] && s[hi2 - 1] == r2[|r2| - 1];
      assert hi1 == hi2;
    }
  }

  /** TrimSpace returns exactly the string the reference meaning describes. */
  lemma TrimSpaceIsTrimming(s: string, r: string, lo: int)
    requires TrimmedAt(s, r, lo)
    ensures TrimSpace(s) == r
  {
    var lo' :| TrimmedAt(s, TrimSpace(s), lo');
    TrimmedAtUnique(s, r, lo, TrimSpace(s), lo');
  }

  /** Trimming a trimmed string changes nothing. */
  lemma TrimSpaceIdempotent(s: string)
    ensures TrimSpace(TrimSpace(s)) == TrimSpace(s)
  {
    var r := TrimSpace(s);
    assert r[0..0 + |r|] == r;
    TrimSpaceIsTrimming(r, r, 0);
  }

  /** A string of white space only trims to the empty string. */
  lemma TrimSpaceAllSpace(s: string)
    requires forall i :: 0 <= i < |s| ==> IsSpace(s[i])
    ensures TrimSpace(s) == ""
  {
    TrimSpaceIsTrimming(s, "", 0);
  }
}
