/**
 * The two string operations the keyword matcher relies on: Python's `str.lower()`,
 * restricted to ASCII, and Python's substring test `needle in hay`.
 */
module Text {

  predicate IsUpperAscii(c: char) {
    'A' <= c <= 'Z'
  }

  predicate IsLowerAscii(c: char) {
    'a' <= c <= 'z'
  }

  /** `str.lower()` on one character: ASCII capitals become their small letter, all else is kept. */
  function LowerChar(c: char): (r: char)
    ensures !IsUpperAscii(r)
    ensures IsUpperAscii(c) ==> IsLowerAscii(r) && r as int - 'a' as int == c as int - 'A' as int
    ensures !IsUpperAscii(c) ==> r == c
  {
    if IsUpperAscii(c) then (c as int - 'A' as int + 'a' as int) as char else c
  }

  /** `str.lower()` on a whole string, character by character. */
  function Lower(s: string): (r: string)
    ensures |r| == |s|
    ensures forall i :: 0 <= i < |s| ==> r[i] == LowerChar(s[i])
  {
    if s == [] then [] else [LowerChar(s[0])] + Lower(s[1..])
  }

  /** Lower-casing twice is lower-casing once. */
  lemma LowerIdempotent(s: string)
    ensures Lower(Lower(s)) == Lower(s)
  {
    assert forall i :: 0 <= i < |s| ==> Lower(Lower(s))[i] == Lower(s)[i];
  }

  lemma LowerEmpty(s: string)
    ensures Lower(s) == [] <==> s == []
  {
  }

  /** `needle` sits in `hay` starting at index `i`. */
  predicate OccursAt(needle: string, hay: string, i: int) {
    0 <= i && i + |needle| <= |hay| && hay[i..i + |needle|] == needle
  }

  /** The meaning of Python's `needle in hay` for strings. */
  ghost predicate Occurs(needle: string, hay: string) {
    exists i :: OccursAt(needle, hay, i)
  }

  lemma OccursShift(needle: string, hay: string)
    requires |hay| > 0
    ensures Occurs(needle, hay[1..]) ==> Occurs(needle, hay)
    ensures Occurs(needle, hay) && !OccursAt(needle, hay, 0) ==> Occurs(needle, hay[1..])
  {
    if Occurs(needle, hay[1..]) {
      var i :| OccursAt(needle, hay[1..], i);
      assert hay[i + 1..i + 1 + |needle|] == hay[1..][i..i + |needle|];
      assert OccursAt(needle, hay, i + 1);
    }
    if Occurs(needle, hay) && !OccursAt(needle, hay, 0) {
      var i :| OccursAt(needle, hay, i);
      assert i > 0;
      assert hay[1..][i - 1..i - 1 + |needle|] == hay[i..i + |needle|];
      assert OccursAt(needle, hay[1..], i - 1);
    }
  }

  /** Python's `needle in hay`, searching left to right; the empty needle is in every string. */
  function Contains(needle: string, hay: string): (b: bool)
    ensures b <==> Occurs(needle, hay)
    decreases |hay|
  {
    if |needle| > |hay| then
      false
    else if hay[..|needle|] == needle then
      assert OccursAt(needle, hay, 0);
      true
    else
      OccursShift(needle, hay);
      Contains(needle, hay[1..])
  }

  /** A string occurs in any concatenation that has it as a middle part. */
  lemma OccursInMiddle(pre: string, x: string, post: string)
    ensures Occurs(x, pre + x + post)
  {
    var whole := pre + x + post;
    assert whole[|pre|..|pre| + |x|] == x;
    assert OccursAt(x, whole, |pre|);
  }

  lemma EmptyOccursEverywhere(hay: string)
    ensures Occurs([], hay)
  {
    assert OccursAt([], hay, 0);
  }
}
