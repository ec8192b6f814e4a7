/**
 * The two string operations the allergen matcher relies on: lower-casing
 * (`String.toLowerCase`, modelled as ASCII case folding) and substring search
 * (`String.contains`).
 */
module Text {

  /** ASCII case folding of one character; every other character is kept. */
  function LowerChar(c: char): (r: char)
    ensures 'A' <= c <= 'Z' ==> r as int == c as int + 32
    ensures !('A' <= c <= 'Z') ==> r == c
    ensures !('A' <= r <= 'Z')
  {
    if 'A' <= c <= 'Z' then (c as int + 32) as char else c
  }

  /** Lower-cases every character of `s`, keeping its length and order. */
  function Lower(s: string): (r: string)
    ensures |r| == |s|
    ensures forall i :: 0 <= i < |s| ==> r[i] == LowerChar(s[i])
  {
    if s == [] then [] else [LowerChar(s[0])] + Lower(s[1..])
  }

  /** `pat` occurs in `text` starting at position `i`. */
  ghost predicate OccursAt(pat: string, text: string, i: int)
  {
    0 <= i && i + |pat| <= |text| && text[i..i + |pat|] == pat
  }

  /** The specification of `String.contains`: some position where `pat` occurs. */
  ghost predicate IsSubstring(pat: string, text: string)
  {
    exists i :: OccursAt(pat, text, i)
  }

  /** Substring search, scanning `text` from the left. */
  function Contains(text: string, pat: string): (r: bool)
    ensures r <==> IsSubstring(pat, text)
    decreases |text|
  {
    if |text| < |pat| then
      assert forall i :: !OccursAt(pat, text, i);
      false
    else if text[..|pat|] == pat then
      assert OccursAt(pat, text, 0);
      true
    else
      var rest := Contains(text[1..], pat);
      ShiftOccurrence(pat, text);
      rest
  }

  /** An occurrence in `text` is either at its start or an occurrence in its tail. */
  lemma ShiftOccurrence(pat: string, text: string)
    requires |text| > 0
    ensures IsSubstring(pat, text) <==> OccursAt(pat, text, 0) || IsSubstring(pat, text[1..])
  {
    if IsSubstring(pat, text) {
      var i :| OccursAt(pat, text, i);
      if i > 0 {
        assert text[1..][i - 1..i - 1 + |pat|] == text[i..i + |pat|];
        assert OccursAt(pat, text[1..], i - 1);
      }
    }
    if IsSubstring(pat, text[1..]) {
      var j :| OccursAt(pat, text[1..], j);
      assert text[1..][j..j + |pat|] == text[j + 1..j + 1 + |pat|];
      assert OccursAt(pat, text, j + 1);
    }
  }

  /** Lower-casing twice is the same as lower-casing once. */
  lemma LowerIdempotent(s: string)
    ensures Lower(Lower(s)) == Lower(s)
  {
  }

  /** A string without upper-case ASCII letters is its own lower-case form. */
  lemma LowerOfLowerCase(s: string)
    requires forall i :: 0 <= i < |s| ==> !('A' <= s[i] <= 'Z')
    ensures Lower(s) == s
  {
  }

  /** Case folding distributes over slices, so it keeps every occurrence. */
  lemma LowerKeepsOccurrence(pat: string, text: string)
    requires IsSubstring(pat, text)
    ensures IsSubstring(Lower(pat), Lower(text))
  {
    var i :| OccursAt(pat, text, i);
    assert Lower(text)[i..i + |pat|] == Lower(pat);
    assert OccursAt(Lower(pat), Lower(text), i);
  }

  /** A pattern holding a character that the text lacks never occurs in it. */
  lemma MissingCharNotSubstring(pat: string, text: string, c: char)
    requires c in pat && c !in text
    ensures !IsSubstring(pat, text)
  {
  }
}
